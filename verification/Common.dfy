/** Result and option types, identifier syntax and timestamps shared by the campaign modules. */
module Common {

  datatype Option<+T> = None | Some(value: T)

  datatype Result<+T, +E> = Ok(value: T) | Err(error: E)

  /** The stable lowercase identifiers that every journal identity must match. */
  predicate IsLowerAlnum(c: char) {
    'a' <= c <= 'z' || '0' <= c <= '9'
  }

  predicate IsSafeId(s: string) {
    && 1 <= |s| <= 128
    && IsLowerAlnum(s[0])
    && forall i :: 1 <= i < |s| ==> IsLowerAlnum(s[i]) || s[i] in "._-"
  }

  predicate IsSha256(s: string) {
    && |s| == 64
    && forall i :: 0 <= i < 64 ==> '0' <= s[i] <= '9' || 'a' <= s[i] <= 'f'
  }

  /** Instants are whole microseconds; a journal writes them truncated to the millisecond. */
  function Stamp(instant: int): (stamp: int)
    ensures stamp <= instant < stamp + 1000
    ensures stamp % 1000 == 0
  {
    instant - instant % 1000
  }

  predicate Distinct<T(==)>(s: seq<T>) {
    forall i, j :: 0 <= i < j < |s| ==> s[i] != s[j]
  }
}
