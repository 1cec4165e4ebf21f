/** Small value types shared by the purchase store and the auth store. */
module Common {

  /** A value that may be absent, used where the source writes `T | null`. */
  datatype Option<+T> = None | Some(value: T)

  /** The two approving roles, written 'director' | 'finance' in the source. */
  datatype Role = Director | Finance

  /** The string literal that stands for a role. */
  function RoleName(r: Role): string
  {
    match r
    case Director => "director"
    case Finance => "finance"
  }

  /** What a remote API call produced: its value, or a thrown error's message. */
  datatype ApiOutcome<+T> = Ok(value: T) | Fail(message: string)

  /** A point in time, as milliseconds; `new Date()` becomes a parameter of this type. */
  type Timestamp = int

  predicate IsUpper(c: char)
  {
    'A' <= c <= 'Z'
  }

  /** ASCII lowercasing of one character. */
  function LowerChar(c: char): (r: char)
    ensures IsUpper(c) ==> r as int == c as int + 32
    ensures !IsUpper(c) ==> r == c
    ensures !IsUpper(r)
  {
    if IsUpper(c) then (c as int - 'A' as int + 'a' as int) as char else c
  }

  /** `String.prototype.toLowerCase`, restricted to ASCII letters. */
  function ToLower(s: string): (r: string)
    ensures |r| == |s|
    ensures forall i :: 0 <= i < |s| ==> r[i] == LowerChar(s[i])
  {
    if s == [] then [] else [LowerChar(s[0])] + ToLower(s[1..])
  }
}
