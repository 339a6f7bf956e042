/** Session identifiers, minted the same way by the authentication endpoint
    and by the page's "new session" button: a fixed prefix, then up to nine
    characters of the base-36 rendering of a random number. */
module Session {
  import opened Text

  const SessionPrefix: string := "session_"

  /** How many characters of the random fraction are kept. */
  const SessionDigits: nat := 9

  predicate IsBase36Digit(c: char)
  {
    '0' <= c <= '9' || 'a' <= c <= 'z'
  }

  /** `Math.random().toString(36)` is "0" or "0." followed by base-36 digits:
      everything from index 2 on is a base-36 digit. */
  predicate FractionIsBase36(randomText: string)
  {
    forall i :: 2 <= i < |randomText| ==> IsBase36Digit(randomText[i])
  }

  /** The identifier built from `randomText`, the rendering of `Math.random()`
      in base 36. It is the prefix followed by the first nine characters of the
      fraction (all of them when there are fewer), taken in order from index 2. */
  function NewSessionId(randomText: string): (id: string)
    ensures |SessionPrefix| <= |id| <= |SessionPrefix| + SessionDigits
    ensures id[..|SessionPrefix|] == SessionPrefix
    ensures |id| - |SessionPrefix| ==
              if |randomText| <= 2 then 0
              else if |randomText| >= 2 + SessionDigits then SessionDigits
              else |randomText| - 2
    ensures forall i :: |SessionPrefix| <= i < |id| ==>
              2 + i - |SessionPrefix| < |randomText| && id[i] == randomText[2 + i - |SessionPrefix|]
    ensures FractionIsBase36(randomText) ==>
              forall i :: |SessionPrefix| <= i < |id| ==> IsBase36Digit(id[i])
  {
    SessionPrefix + Substr(randomText, 2, SessionDigits)
  }
}
