/**
 * Values and string helpers shared by the dashboard's pages and stores:
 * optional values and API results, the record the admin endpoints return
 * for a user, ASCII case folding (`toLowerCase`), substring search
 * (`includes`), `trim`, the order-preserving `Array.prototype.filter`, and
 * the case-insensitive classification of an execution status.
 */
module Common {

  datatype Option<T> = None | Some(value: T) {
    function GetOr(default: T): T {
      match this
      case Some(v) => v
      case None => default
    }
  }

  /** The message of a rejected API call. */
  datatype ApiError = ApiError(message: string)

  /** The outcome of an API call: its payload, or the error it was rejected with. */
  datatype Result<T> = Ok(value: T) | Err(error: ApiError)

  datatype Role = USER | ADMIN

  /** A user as the admin endpoints return it (`User` with `jobCount`). */
  datatype UserRecord = UserRecord(
    id: string,
    email: string,
    name: Option<string>,
    role: Option<Role>,
    plan: Option<string>,
    createdAt: int,
    jobCount: nat)

  // ---------------------------------------------------------------------------
  // Case folding and substring search

  predicate IsAsciiUpper(c: char) { 'A' <= c <= 'Z' }

  function LowerChar(c: char): (d: char)
    ensures !IsAsciiUpper(d)
    ensures !IsAsciiUpper(c) ==> d == c
  {
    if IsAsciiUpper(c) then (c as int + 32) as char else c
  }

  /** `toLowerCase`, restricted to the ASCII letters. */
  function Lower(s: string): (r: string)
    ensures |r| == |s|
    ensures forall i :: 0 <= i < |s| ==> r[i] == LowerChar(s[i])
    ensures forall i :: 0 <= i < |r| ==> !IsAsciiUpper(r[i])
  {
    if s == [] then [] else [LowerChar(s[0])] + Lower(s[1..])
  }

  lemma LowerIdempotent(s: string)
    ensures Lower(Lower(s)) == Lower(s)
  {
  }

  /** `text.includes(query)`: `query` occurs in `text` at some offset. */
  predicate Includes(text: string, query: string) {
    exists i :: 0 <= i <= |text| && OccursAt(text, query, i)
  }

  predicate OccursAt(text: string, query: string, i: int) {
    0 <= i &&
    i + |query| <= |text| && text[i..i + |query|] == query
  }

  lemma IncludesEmpty(text: string)
    ensures Includes(text, [])
  {
    assert OccursAt(text, [], 0);
  }

  // ---------------------------------------------------------------------------
  // Trimming

  /** The characters `String.prototype.trim` removes: ECMAScript WhiteSpace
      (tab, VT, FF, space, NBSP, ZWNBSP and the Zs category) and LineTerminator. */
  predicate IsJsWhitespace(c: char) {
    c == '\t' || c == '\n' || c == '\U{000B}' || c == '\U{000C}' || c == '\r' || c == ' '
    || c == '\U{00A0}' || c == '\U{1680}' || ('\U{2000}' <= c <= '\U{200A}')
    || c == '\U{2028}' || c == '\U{2029}' || c == '\U{202F}' || c == '\U{205F}'
    || c == '\U{3000}' || c == '\U{FEFF}'
  }

  function TrimStart(s: string): (r: string)
    ensures |r| <= |s| && r == s[|s| - |r|..]
    ensures forall k :: 0 <= k < |s| - |r| ==> IsJsWhitespace(s[k])
    ensures r != [] ==> !IsJsWhitespace(r[0])
  {
    if s != [] && IsJsWhitespace(s[0]) then TrimStart(s[1..]) else s
  }

  function TrimEnd(s: string): (r: string)
    ensures |r| <= |s| && r == s[..|r|]
    ensures forall k :: |r| <= k < |s| ==> IsJsWhitespace(s[k])
    ensures r != [] ==> !IsJsWhitespace(r[|r| - 1])
  {
    if s != [] && IsJsWhitespace(s[|s| - 1]) then TrimEnd(s[..|s| - 1]) else s
  }

  /** `trim` */
  function Trim(s: string): string {
    TrimEnd(TrimStart(s))
  }

  /** `trim` yields the longest infix of `s` that neither starts nor ends
      with white space: empty exactly when `s` is all white space. */
  lemma TrimSpec(s: string)
    ensures Includes(s, Trim(s))
    ensures Trim(s) != [] ==> !IsJsWhitespace(Trim(s)[0]) && !IsJsWhitespace(Trim(s)[|Trim(s)| - 1])
    ensures Trim(s) == [] <==> forall k :: 0 <= k < |s| ==> IsJsWhitespace(s[k])
  {
    var t := TrimStart(s);
    assert OccursAt(s, Trim(s), |s| - |t|);
  }

  // ---------------------------------------------------------------------------
  // Order-preserving filtering

  /** `r` can be obtained from `s` by deleting elements (checked greedily). */
  predicate IsSubsequence<T(==)>(r: seq<T>, s: seq<T>)
    decreases |s|
  {
    if r == [] then true
    else if s == [] then false
    else if r[0] == s[0] then IsSubsequence(r[1..], s[1..])
    else IsSubsequence(r, s[1..])
  }

  lemma {:induction false} SubsequenceCons<T>(r: seq<T>, s: seq<T>, x: T)
    requires IsSubsequence(r, s)
    ensures IsSubsequence(r, [x] + s)
    decreases |r| + |s| + 1
  {
    if r != [] && r[0] == x {
      SubsequenceTail(r, s);
      assert ([x] + s)[1..] == s;
    } else if r != [] {
      assert ([x] + s)[1..] == s;
    }
  }

  lemma {:induction false} SubsequenceTail<T>(r: seq<T>, s: seq<T>)
    requires r != [] && IsSubsequence(r, s)
    ensures IsSubsequence(r[1..], s)
    decreases |r| + |s|
  {
    assert s != [];
    if r[0] == s[0] {
      SubsequenceCons(r[1..], s[1..], s[0]);
      assert [s[0]] + s[1..] == s;
    } else {
      SubsequenceTail(r, s[1..]);
      SubsequenceCons(r[1..], s[1..], s[0]);
      assert [s[0]] + s[1..] == s;
    }
  }

  /** Every sequence is a subsequence of itself. */
  lemma {:induction false} SubsequenceRefl<T>(s: seq<T>)
    ensures IsSubsequence(s, s)
  {
    if s != [] {
      SubsequenceRefl(s[1..]);
    }
  }

  /** `s.filter(p)`: exactly the elements satisfying `p`, in their original
      order; `FilterCounts` adds that each is kept as often as in `s`. */
  function Filter<T(==, !new)>(s: seq<T>, p: T -> bool): (r: seq<T>)
    ensures |r| <= |s|
    ensures forall x :: x in r <==> x in s && p(x)
    ensures IsSubsequence(r, s)
    decreases |s|
  {
    if s == [] then []
    else
      var rest := Filter(s[1..], p);
      assert [s[0]] + s[1..] == s;
      if p(s[0]) then
        assert ([s[0]] + rest)[1..] == rest;
        [s[0]] + rest
      else
        SubsequenceCons(rest, s[1..], s[0]);
        rest
  }

  /** `filter` keeps every copy of a passing element and no copy of a failing one. */
  lemma {:induction false} FilterCounts<T(!new)>(s: seq<T>, p: T -> bool)
    ensures forall x :: multiset(Filter(s, p))[x] == if p(x) then multiset(s)[x] else 0
  {
    if s != [] {
      assert [s[0]] + s[1..] == s;
      FilterCounts(s[1..], p);
    }
  }

  /** Filtering distributes over appending one element at the end. */
  lemma {:induction false} FilterSnoc<T(!new)>(s: seq<T>, x: T, p: T -> bool)
    ensures Filter(s + [x], p) == Filter(s, p) + (if p(x) then [x] else [])
  {
    if s != [] {
      assert (s + [x])[1..] == s[1..] + [x];
      FilterSnoc(s[1..], x, p);
    } else {
      assert ([x])[1..] == [];
    }
  }

  lemma FilterSnocLength<T(!new)>(s: seq<T>, x: T, p: T -> bool)
    ensures |Filter(s + [x], p)| == |Filter(s, p)| + (if p(x) then 1 else 0)
  {
    FilterSnoc(s, x, p);
  }

  /** Predicates that agree on the elements filter alike. */
  lemma {:induction false} FilterAgrees<T(!new)>(s: seq<T>, p: T -> bool, q: T -> bool)
    requires forall x :: x in s ==> p(x) == q(x)
    ensures Filter(s, p) == Filter(s, q)
  {
    if s != [] {
      FilterAgrees(s[1..], p, q);
    }
  }

  /** Filtering with a predicate every element satisfies changes nothing. */
  lemma {:induction false} FilterKeepsAll<T(!new)>(s: seq<T>, p: T -> bool)
    requires forall x :: x in s ==> p(x)
    ensures Filter(s, p) == s
  {
    if s != [] {
      FilterKeepsAll(s[1..], p);
    }
  }

  // ---------------------------------------------------------------------------
  // Sequences

  /** `Array.prototype.reverse`. */
  function Reverse<T>(s: seq<T>): (r: seq<T>)
    ensures |r| == |s|
    ensures forall i :: 0 <= i < |s| ==> r[i] == s[|s| - 1 - i]
  {
    if s == [] then [] else Reverse(s[1..]) + [s[0]]
  }

  /** No element occurs twice. */
  predicate Distinct<T(==)>(s: seq<T>) {
    forall i, j :: 0 <= i < j < |s| ==> s[i] != s[j]
  }

  // ---------------------------------------------------------------------------
  // Select values meaning "no filter"

  /** A select value of "all" is sent as no parameter; any other value as itself. */
  function AllAsNone(choice: string): (r: Option<string>)
    ensures r == None <==> choice == "all"
    ensures r != None ==> r.value == choice
  {
    if choice == "all" then None else Some(choice)
  }

  // ---------------------------------------------------------------------------
  // Execution status

  datatype StatusKind = Succeeded | Failed | Running

  /** A status compared case-insensitively with "success" and "failed";
      every other status (RUNNING, TIMEOUT, ...) falls into the third class. */
  function ClassifyStatus(status: string): (k: StatusKind)
    ensures k == Succeeded <==> Lower(status) == "success"
    ensures k == Failed <==> Lower(status) == "failed"
  {
    var s := Lower(status);
    if s == "success" then Succeeded else if s == "failed" then Failed else Running
  }

  lemma ClassifyIgnoresCase(status: string)
    ensures ClassifyStatus(Lower(status)) == ClassifyStatus(status)
  {
    LowerIdempotent(status);
  }
}
