/** The generator's project-name question: the answer check. */
module ProjectPrompt {
  import opened Text

  /** What `validate` returns: `true`, or the message to show. */
  datatype Answer = Accepted | Rejected(message: string)

  const NameMessage := "A project name is required. It must be a single string between 4-8 characters, and contain only letters and numbers."

  /** `validate`: four to eight characters, all ASCII letters or digits. A
      name with any other character can only fail, so counting characters
      rather than UTF-16 units decides the same names. */
  function Validate(value: string): (r: Answer)
    ensures r == Accepted <==> 4 <= |value| <= 8 && forall k :: 0 <= k < |value| ==> IsAsciiLetterOrDigit(value[k])
    ensures r.Rejected? ==> r.message == NameMessage
  {
    if |value| < 4 || |value| > 8 || !(value != [] && forall k :: 0 <= k < |value| ==> IsAsciiLetterOrDigit(value[k])) then
      Rejected(NameMessage)
    else
      Accepted
  }

  /** An empty name, or one holding white space, is refused with the message. */
  lemma BlankOrSpacedRejected(value: string, k: nat)
    requires value == [] || (k < |value| && IsWhitespace(value[k]))
    ensures Validate(value) == Rejected(NameMessage)
  {
  }

  /** Names at both ends of the length range pass; one past either end fails. */
  lemma LengthBounds()
    ensures Validate("abcd") == Accepted && Validate("Proj2024") == Accepted
    ensures Validate("abc") == Rejected(NameMessage) && Validate("Project24") == Rejected(NameMessage)
  {
  }
}
