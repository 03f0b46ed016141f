/** Shared vocabulary of the backend: identifiers, instants, optional values, response
    statuses, and the string operations the views rely on (case-insensitive containment,
    `str.strip`, slicing, joining, and the decimal rendering of integers). */
module Common {

  /** Primary key of a stored row. */
  type Id = nat

  /** An instant, in seconds. The clock is never read: every operation takes `now`. */
  type Time = int

  const SecondsPerMinute: int := 60
  const SecondsPerDay: int := 86400

  datatype Option<T> = None | Some(value: T)

  /** What a request handler answers. The last three are exceptions the views do not
      catch, which the framework turns into a server error. */
  datatype Status =
    | Ok
    | Created
    | NoContent
    | BadRequest
    | Unauthorized
    | Forbidden
    | NotFound
    | PermissionRaised  // a `PermissionError` raised by a guard
    | IntegrityRaised   // a uniqueness constraint of the database refused the row
    | ServerError       // an `IndexError`

  datatype Result<T> = Success(value: T) | Failure(status: Status)

  function HttpCode(s: Status): (code: nat)
    ensures 200 <= code < 600
    ensures (code < 300) <==> (s == Ok || s == Created || s == NoContent)
  {
    match s
    case Ok => 200
    case Created => 201
    case NoContent => 204
    case BadRequest => 400
    case Unauthorized => 401
    case Forbidden => 403
    case NotFound => 404
    case PermissionRaised => 500
    case IntegrityRaised => 500
    case ServerError => 500
  }

  // ---------------------------------------------------------------------------
  // Case folding and containment (`__icontains`)
  // ---------------------------------------------------------------------------

  predicate IsUpper(c: char) { 'A' <= c <= 'Z' }

  function ToLower(c: char): (d: char)
    ensures !IsUpper(d)
    ensures !IsUpper(c) ==> d == c
  {
    if IsUpper(c) then (c as int + 32) as char else c
  }

  /** ASCII lower-casing of a whole string. */
  function Lower(s: string): (r: string)
    ensures |r| == |s|
    ensures forall i :: 0 <= i < |s| ==> r[i] == ToLower(s[i])
  {
    if s == [] then [] else [ToLower(s[0])] + Lower(s[1..])
  }

  lemma {:induction false} LowerIdempotent(s: string)
    ensures Lower(Lower(s)) == Lower(s)
  {
    var l := Lower(s);
    var ll := Lower(l);
    assert |ll| == |l|;
    forall i | 0 <= i < |l| ensures ll[i] == l[i] {
      assert !IsUpper(l[i]);
    }
  }

  predicate IsPrefix(p: string, s: string) {
    |p| <= |s| && s[..|p|] == p
  }

  /** `p` occurs somewhere in `s`. */
  predicate IsSubstring(p: string, s: string)
    decreases |s|
  {
    IsPrefix(p, s) || (|s| > 0 && IsSubstring(p, s[1..]))
  }

  /** `p` occurs in `s` starting at position `k`. */
  predicate OccursAt(p: string, s: string, k: int) {
    0 <= k <= |s| - |p| && s[k..k + |p|] == p
  }

  /** The recursive definition agrees with "some window of `s` equals `p`". */
  lemma {:induction false} SubstringWindow(p: string, s: string)
    ensures IsSubstring(p, s) <==> exists k :: OccursAt(p, s, k)
    decreases |s|
  {
    if IsPrefix(p, s) {
      assert OccursAt(p, s, 0);
    } else if |s| > 0 {
      SubstringWindow(p, s[1..]);
      if IsSubstring(p, s[1..]) {
        var k :| OccursAt(p, s[1..], k);
        assert s[k + 1..k + 1 + |p|] == s[1..][k..k + |p|];
        assert OccursAt(p, s, k + 1);
      }
      if exists k :: OccursAt(p, s, k) {
        var k :| OccursAt(p, s, k);
        if k > 0 {
          assert s[1..][k - 1..k - 1 + |p|] == s[k..k + |p|];
          assert OccursAt(p, s[1..], k - 1);
        }
      }
    }
  }

  /** Django's `field__icontains=needle`: `needle` occurs in `hay`, ignoring case. */
  predicate IContains(hay: string, needle: string) {
    IsSubstring(Lower(needle), Lower(hay))
  }

  /** Every field contains the empty string, so an empty filter value keeps every row. */
  lemma IContainsEmpty(hay: string)
    ensures IContains(hay, "")
  {
    assert Lower("") == "";
    assert IsPrefix("", Lower(hay));
  }

  /** A string contains itself, in any case. */
  lemma IContainsSelf(s: string)
    ensures IContains(s, s)
  {
    assert Lower(s)[..|Lower(s)|] == Lower(s);
  }

  // ---------------------------------------------------------------------------
  // `str.strip()` (ASCII whitespace)
  // ---------------------------------------------------------------------------

  /** The ASCII characters Python's `str.isspace` accepts. */
  predicate IsSpace(c: char) {
    c == ' ' || 9 <= c as int <= 13 || 28 <= c as int <= 31
  }

  function StripLeft(s: string): (r: string)
    ensures |r| <= |s| && r == s[|s| - |r|..]
    ensures r == [] || !IsSpace(r[0])
    ensures forall i :: 0 <= i < |s| - |r| ==> IsSpace(s[i])
  {
    if s != [] && IsSpace(s[0]) then StripLeft(s[1..]) else s
  }

  function StripRight(s: string): (r: string)
    ensures |r| <= |s| && r == s[..|r|]
    ensures r == [] || !IsSpace(r[|r| - 1])
    ensures forall i :: |r| <= i < |s| ==> IsSpace(s[i])
  {
    if s != [] && IsSpace(s[|s| - 1]) then StripRight(s[..|s| - 1]) else s
  }

  /** `r` sits at offset `k` of `s`, and everything before and after it is whitespace. */
  predicate CutOnlySpace(r: string, s: string, k: int) {
    && OccursAt(r, s, k)
    && (forall i :: 0 <= i < k ==> IsSpace(s[i]))
    && (forall i :: k + |r| <= i < |s| ==> IsSpace(s[i]))
  }

  /** Cutting whitespace off the front of `s` (leaving `l`) and then off the back of `l`
      (leaving `r`) leaves a window of `s` with only whitespace cut away on either side. */
  lemma WindowCutOnlySpace(s: string, l: string, r: string)
    requires |l| <= |s| && l == s[|s| - |l|..]
    requires forall i :: 0 <= i < |s| - |l| ==> IsSpace(s[i])
    requires |r| <= |l| && r == l[..|r|]
    requires forall i :: |r| <= i < |l| ==> IsSpace(l[i])
    ensures CutOnlySpace(r, s, |s| - |l|)
  {
    var k := |s| - |l|;
    assert s[k .. k + |r|] == r;
    forall i | k + |r| <= i < |s| ensures IsSpace(s[i]) {
      assert s[i] == l[i - k];
    }
  }

  /** Python's `s.strip()`: the longest window of `s` that neither starts nor ends with
      whitespace, and the empty string when `s` is all whitespace. */
  function Strip(s: string): (r: string)
    ensures r == [] || (!IsSpace(r[0]) && !IsSpace(r[|r| - 1]))
    ensures exists k :: CutOnlySpace(r, s, k)
    ensures r == [] <==> forall i :: 0 <= i < |s| ==> IsSpace(s[i])
  {
    var l := StripLeft(s);
    var r := StripRight(l);
    WindowCutOnlySpace(s, l, r);
    assert CutOnlySpace(r, s, |s| - |l|);
    if r == [] then
      assert l == [];
      r
    else
      assert r[0] == l[0];
      r
  }


  lemma StripIdempotent(s: string)
    ensures Strip(Strip(s)) == Strip(s)
  {
    var t := Strip(s);
    if t != [] {
      assert StripLeft(t) == t;
      assert StripRight(t) == t;
    }
  }

  // ---------------------------------------------------------------------------
  // `order_by('name')`: code-point order on strings
  // ---------------------------------------------------------------------------

  /** `a` sorts no later than `b`: a prefix first, otherwise the first differing
      character decides. */
  predicate LexLe(a: string, b: string)
    decreases |a|
  {
    a == [] || (b != [] && (a[0] < b[0] || (a[0] == b[0] && LexLe(a[1..], b[1..]))))
  }

  lemma {:induction false} LexLeTotal(a: string, b: string)
    ensures LexLe(a, b) || LexLe(b, a)
    decreases |a|
  {
    if a != [] && b != [] && a[0] == b[0] {
      LexLeTotal(a[1..], b[1..]);
    }
  }

  lemma {:induction false} LexLeTransitive(a: string, b: string, c: string)
    requires LexLe(a, b) && LexLe(b, c)
    ensures LexLe(a, c)
    decreases |a|
  {
    if a != [] && a[0] == b[0] && b[0] == c[0] {
      LexLeTransitive(a[1..], b[1..], c[1..]);
    }
  }

  /** Only equal strings sort no later than each other. */
  lemma {:induction false} LexLeAntisymmetric(a: string, b: string)
    requires LexLe(a, b) && LexLe(b, a)
    ensures a == b
    decreases |a|
  {
    if a != [] {
      LexLeAntisymmetric(a[1..], b[1..]);
      assert a == [a[0]] + a[1..] && b == [b[0]] + b[1..];
    }
  }

  // ---------------------------------------------------------------------------
  // Slicing, joining, decimal digits
  // ---------------------------------------------------------------------------

  /** Python's `s[:n]` for a non-negative `n`. */
  function Take(s: string, n: nat): (r: string)
    ensures |r| == if |s| <= n then |s| else n
    ensures IsPrefix(r, s)
  {
    if |s| <= n then s else s[..n]
  }

  /** Python's `sep.join(parts)`. */
  function Join(parts: seq<string>, sep: string): (r: string)
    ensures parts == [] ==> r == ""
    ensures |parts| == 1 ==> r == parts[0]
    ensures |parts| >= 1 ==> IsPrefix(parts[0], r)
    ensures |parts| >= 1 ==> |r| == TotalLength(parts) + (|parts| - 1) * |sep|
  {
    if parts == [] then ""
    else if |parts| == 1 then parts[0]
    else parts[0] + sep + Join(parts[1..], sep)
  }

  /** Joining one more part appends the separator and that part: with the empty and the
      one-part cases of `Join`, this determines the joined string for every list. */
  lemma {:induction false} JoinAppend(parts: seq<string>, p: string, sep: string)
    requires |parts| >= 1
    ensures Join(parts + [p], sep) == Join(parts, sep) + sep + p
    decreases |parts|
  {
    if |parts| == 1 {
      assert (parts + [p])[1..] == [p];
    } else {
      assert (parts + [p])[1..] == parts[1..] + [p];
      JoinAppend(parts[1..], p, sep);
    }
  }

  function TotalLength(parts: seq<string>): nat {
    if parts == [] then 0 else |parts[0]| + TotalLength(parts[1..])
  }

  predicate IsDigit(c: char) { '0' <= c <= '9' }

  function DigitChar(d: nat): (c: char)
    requires d < 10
    ensures IsDigit(c) && c as int - '0' as int == d
  {
    ('0' as int + d) as char
  }

  /** Python's `str(n)` for a non-negative integer. */
  function NatToString(n: nat): (r: string)
    ensures |r| >= 1
    ensures forall i :: 0 <= i < |r| ==> IsDigit(r[i])
    ensures n >= 10 ==> r[0] != '0'
    decreases n
  {
    if n < 10 then [DigitChar(n)] else NatToString(n / 10) + [DigitChar(n % 10)]
  }

  /** The number a string of decimal digits denotes. */
  function DigitsValue(s: string): nat
    requires forall i :: 0 <= i < |s| ==> IsDigit(s[i])
  {
    if s == [] then 0
    else
      assert IsDigit(s[|s| - 1]);
      DigitsValue(s[..|s| - 1]) * 10 + (s[|s| - 1] as int - '0' as int)
  }

  /** Rendering an integer in decimal loses nothing. */
  lemma {:induction false} NatToStringRoundTrip(n: nat)
    ensures DigitsValue(NatToString(n)) == n
    decreases n
  {
    var r := NatToString(n);
    if n >= 10 {
      NatToStringRoundTrip(n / 10);
      assert r[..|r| - 1] == NatToString(n / 10);
    }
  }

  /** Distinct numbers render as distinct strings. */
  lemma NatToStringInjective(m: nat, n: nat)
    ensures NatToString(m) == NatToString(n) ==> m == n
  {
    NatToStringRoundTrip(m);
    NatToStringRoundTrip(n);
  }

  /** Every number drawn from [100000, 999999] renders as exactly six digits. */
  lemma SixDigitCode(n: nat)
    requires 100000 <= n <= 999999
    ensures |NatToString(n)| == 6
  {
    var d1 := n / 10;
    var d2 := d1 / 10;
    var d3 := d2 / 10;
    var d4 := d3 / 10;
    var d5 := d4 / 10;
    assert 1 <= d5 <= 9;
    assert |NatToString(d5)| == 1;
    assert |NatToString(d4)| == 2;
    assert |NatToString(d3)| == 3;
    assert |NatToString(d2)| == 4;
    assert |NatToString(d1)| == 5;
  }
}
