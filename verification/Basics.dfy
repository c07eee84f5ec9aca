/** Shared vocabulary: optional values, outcomes, and the names of Secrets. */
module Basics {

  datatype Option<+T> = None | Some(value: T)

  datatype Result<+T, +E> = Ok(value: T) | Err(error: E)

  /** The name of a Secret in the instance's namespace. `Session` is the one name
      `chatui-session-<hash of the instance UID>`, `Access(rev)` is
      `chatui-access-<rev>`, and every other name is `Other`. */
  datatype Name = Session | Access(rev: string) | Other(text: string)

  /** Byte-wise order of strings, as the `<` of the source language. */
  predicate Less(a: string, b: string) {
    if b == "" then false
    else if a == "" then true
    else a[0] < b[0] || (a[0] == b[0] && Less(a[1..], b[1..]))
  }

  lemma {:induction false} LessTotal(a: string, b: string)
    ensures Less(a, b) || a == b || Less(b, a)
  {
    if a != "" && b != "" && a[0] == b[0] {
      LessTotal(a[1..], b[1..]);
      if a[1..] == b[1..] {
        assert a == [a[0]] + a[1..];
        assert b == [b[0]] + b[1..];
      }
    }
  }

  lemma {:induction false} LessStrict(a: string, b: string, c: string)
    ensures !Less(a, a)
    ensures Less(a, b) && Less(b, c) ==> Less(a, c)
  {
    if a != "" && b != "" && c != "" {
      LessStrict(a[1..], b[1..], c[1..]);
    } else if a != "" {
      LessStrict(a[1..], "", "");
    }
  }
}
