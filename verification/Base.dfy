/** Shared vocabulary: results, opaque identities and the checked 64-bit counter. */
module Base {

  datatype Option<+T> = None | Some(value: T)

  datatype Result<+T, +E> = Ok(value: T) | Err(error: E)

  /** A UUID. Only equality and the order used by sorted collections matter. */
  type Id = nat

  /** A validated name. Names are compared for equality only. */
  type Name = string

  const MAX_U64: nat := 0xFFFF_FFFF_FFFF_FFFF

  type U64 = n: int | 0 <= n <= MAX_U64

  /** `checked_add` on u64. */
  function CheckedAdd(a: U64, b: U64): Option<U64> {
    if a + b <= MAX_U64 then Some(a + b) else None
  }

  /** `checked_sub` on u64. */
  function CheckedSub(a: U64, b: U64): Option<U64> {
    if b <= a then Some(a - b) else None
  }

  /** `sort` on a vector of identities. */
  function Sort(s: seq<Id>): seq<Id> {
    if s == [] then [] else InsertSorted(Sort(s[..|s| - 1]), s[|s| - 1])
  }

  function InsertSorted(s: seq<Id>, x: Id): seq<Id> {
    if s == [] || s[|s| - 1] <= x then s + [x]
    else InsertSorted(s[..|s| - 1], x) + [s[|s| - 1]]
  }

  predicate Ascending(s: seq<Id>) {
    forall i, j | 0 <= i < j < |s| :: s[i] <= s[j]
  }

  lemma {:induction false} InsertSortedKeeps(s: seq<Id>, x: Id)
    ensures multiset(InsertSorted(s, x)) == multiset(s) + multiset{x}
  {
    if s != [] && x < s[|s| - 1] {
      assert s == s[..|s| - 1] + [s[|s| - 1]];
      InsertSortedKeeps(s[..|s| - 1], x);
    }
  }

  lemma {:induction false} InsertSortedAscends(s: seq<Id>, x: Id)
    requires Ascending(s)
    ensures Ascending(InsertSorted(s, x))
    ensures forall y | y in InsertSorted(s, x) :: y in s || y == x
  {
    if s != [] && x < s[|s| - 1] {
      var front := s[..|s| - 1];
      InsertSortedAscends(front, x);
      forall y | y in InsertSorted(front, x)
        ensures y in s || y == x
        ensures y <= s[|s| - 1]
      {
        if y in front {
          var i :| 0 <= i < |front| && front[i] == y;
          assert s[i] == y;
        }
      }
      var r := InsertSorted(front, x);
      assert forall i | 0 <= i < |r| :: r[i] in r;
    }
  }

  /** Sorting orders the entries and keeps each of them. */
  lemma {:induction false} SortSpec(s: seq<Id>)
    ensures Ascending(Sort(s))
    ensures multiset(Sort(s)) == multiset(s)
  {
    if s != [] {
      SortSpec(s[..|s| - 1]);
      InsertSortedKeeps(Sort(s[..|s| - 1]), s[|s| - 1]);
      InsertSortedAscends(Sort(s[..|s| - 1]), s[|s| - 1]);
      assert s == s[..|s| - 1] + [s[|s| - 1]];
    }
  }

  predicate Distinct<T(==)>(s: seq<T>) {
    forall i, j | 0 <= i < j < |s| :: s[i] != s[j]
  }

  /** `len` of a string: how many bytes its UTF-8 form takes. */
  function ByteLength(s: string): nat {
    if s == "" then 0 else
    var c := s[|s| - 1] as int;
    ByteLength(s[..|s| - 1]) + if c < 0x80 then 1 else if c < 0x800 then 2 else if c < 0x1_0000 then 3 else 4
  }

  /** The characters that `trim` removes: Unicode white space. */
  predicate WhiteSpace(c: char) {
    var n := c as int;
    || 0x09 <= n <= 0x0D || n == 0x20 || n == 0x85 || n == 0xA0 || n == 0x1680 || 0x2000 <= n <= 0x200A
    || n == 0x2028 || n == 0x2029 || n == 0x202F || n == 0x205F || n == 0x3000
  }
}
