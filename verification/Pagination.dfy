/** Snapshot listing in pages with string tokens. */
module Pagination {
  import opened Base

  // ----- Decimal tokens -----

  predicate IsDigit(c: char) {
    '0' as int <= c as int <= '9' as int
  }

  function DigitOf(n: nat): char
    requires n < 10
  {
    '0' + n as char
  }

  /** strconv.FormatInt(n, 10) for n >= 0. */
  function Decimal(n: nat): (s: string)
    ensures s != "" && forall c :: c in s ==> IsDigit(c)
    ensures n > 0 ==> s[0] != '0'
  {
    if n < 10 then [DigitOf(n)] else Decimal(n / 10) + [DigitOf(n % 10)]
  }

  function Value(s: string): nat
    requires forall c :: c in s ==> IsDigit(c)
  {
    if s == "" then 0
    else
      var last := s[|s| - 1];
      assert last in s && IsDigit(last);
      10 * Value(s[..|s| - 1]) + (last as int - '0' as int)
  }

  const MAX_UINT32: nat := 0xFFFF_FFFF

  /** strconv.ParseUint(s, 10, 32). */
  function ParseUint32(s: string): (r: Result<nat>)
    ensures r.Ok? ==> r.value <= MAX_UINT32
    ensures r.Err? ==> r.kind == Other
  {
    if s == "" || exists c :: c in s && !IsDigit(c) then Err(Other)
    else if Value(s) > MAX_UINT32 then Err(Other) else Ok(Value(s))
  }

  lemma {:induction false} ValueOfDecimal(n: nat)
    ensures Value(Decimal(n)) == n
  {
    if n >= 10 {
      ValueOfDecimal(n / 10);
      assert (Decimal(n / 10) + [DigitOf(n % 10)])[..|Decimal(n / 10)|] == Decimal(n / 10);
    } else {
      assert [DigitOf(n)][..0] == [];
    }
  }

  /** Tokens round-trip exactly up to 32 bits. */
  lemma TokenRoundTrip(n: nat)
    ensures ParseUint32(Decimal(n)) == if n <= MAX_UINT32 then Ok(n) else Err(Other)
  {
    ValueOfDecimal(n);
  }

  // ----- One page -----

  datatype Page<T> = Page(entries: seq<T>, nextToken: string)

  /** Where a page starts: the token, with "" and "0" read as "1", is a 1-based position. */
  function StartOf(token: string): Result<nat> {
    ParseUint32(if token == "" || token == "0" then "1" else token)
  }

  /** No token, "0" and "1" all mean the start; a token is plain decimal digits. */
  lemma FirstTokens()
    ensures StartOf("") == StartOf("0") == StartOf("1") == Ok(1)
    ensures StartOf("12") == Ok(12) && StartOf("-1").Err? && StartOf("+1").Err? && StartOf("x").Err?
    ensures Decimal(10) == "10"
  {
    assert "12"[..1] == "1" && "1"[..0] == "";
    assert Value("1") == 1 && Value("12") == 12;
    assert '-' in "-1" && '+' in "+1" && 'x' in "x";
    assert Decimal(1) == "1" && Decimal(10) == Decimal(1) + ['0'];
  }

  /** The unsigned decrement of the position, read back as a signed 64-bit index: 0 wraps
      to the largest unsigned number, which reads as -1. */
  function IndexOf(position: nat): int {
    position - 1
  }

  /** Where the page of a token starts, and where it ends (`maxEntries` 0 means all). */
  function Bounds(n: nat, token: string, maxEntries: int): (int, int)
    requires StartOf(token).Ok?
  {
    var start := StartOf(token).value - 1;
    (start, Min(start + (if maxEntries == 0 then n else maxEntries), n))
  }

  /** The token parses and its page lies in the list; an empty list is never looked into. */
  predicate InRange(n: nat, token: string, maxEntries: int) {
    n == 0 || (StartOf(token).Ok? && 0 <= Bounds(n, token, maxEntries).0 <= Bounds(n, token, maxEntries).1)
  }

  /** The page's slice of the list. */
  function Slice<T>(items: seq<T>, token: string, maxEntries: int): seq<T>
    requires InRange(|items|, token, maxEntries)
  {
    if items == [] then []
    else var (start, end) := Bounds(|items|, token, maxEntries); items[start..end]
  }

  /** The slice, with a next token while it ends before the last item. */
  predicate IsPage<T(==)>(items: seq<T>, token: string, maxEntries: int, page: Page<T>) {
    && InRange(|items|, token, maxEntries) && page.entries == Slice(items, token, maxEntries)
    && page.nextToken == if |items| > 0 && Bounds(|items|, token, maxEntries).1 < |items| - 1
                         then Decimal(Bounds(|items|, token, maxEntries).1 + 1) else ""
  }

  /** createSnapshotResponseFromItems; Panic is the slice expression out of range. */
  method PageFrom<T(==)>(items: seq<T>, startingToken: string, maxEntries: int) returns (r: Result<Page<T>>)
    ensures r.Ok? <==> InRange(|items|, startingToken, maxEntries)
    ensures r.Ok? ==> IsPage(items, startingToken, maxEntries, r.value)
    ensures r.Err? ==> r.kind == if StartOf(startingToken).Err? then Other else Panic
  {
    hide Decimal, ParseUint32, StartOf, Bounds, IsPage;
    var page := Page([], "");
    if |items| > 0 {
      var token := startingToken;
      if token == "" || token == "0" {
        token := "1";
      }
      var snapshotLength := |items|;
      var maxLength := maxEntries;
      if maxLength == 0 {
        maxLength := snapshotLength;
      }
      var parsed := ParseUint32(token);
      Starts(startingToken);
      if parsed.Err? {
        return Err(parsed.kind);
      }
      var start := IndexOf(parsed.value);
      var end := start + maxLength;
      if end > snapshotLength {
        end := snapshotLength;
      }
      Ends(|items|, startingToken, maxEntries);
      if !(0 <= start <= end) {
        return Err(Panic);
      }
      var entries := [];
      for i := start to end
        invariant entries == items[start..i]
      {
        assert items[start..i + 1] == items[start..i] + [items[i]];
        entries := entries + [items[i]];
      }
      page := page.(entries := entries);
      if end < snapshotLength - 1 {
        page := page.(nextToken := Decimal(end + 1));
      }
    }
    Pages(items, startingToken, maxEntries, page);
    r := Ok(page);
  }

  lemma Starts(token: string)
    ensures StartOf(token) == ParseUint32(if token == "" || token == "0" then "1" else token)
  {
  }

  lemma Ends(n: nat, token: string, maxEntries: int)
    requires StartOf(token).Ok?
    ensures var start, width := StartOf(token).value - 1, if maxEntries == 0 then n else maxEntries;
            Bounds(n, token, maxEntries) == (start, if start + width > n then n else start + width)
  {
  }

  lemma Pages<T>(items: seq<T>, token: string, maxEntries: int, page: Page<T>)
    requires InRange(|items|, token, maxEntries) && page.entries == Slice(items, token, maxEntries)
    requires page.nextToken == if |items| > 0 && Bounds(|items|, token, maxEntries).1 < |items| - 1
                               then Decimal(Bounds(|items|, token, maxEntries).1 + 1) else ""
    ensures IsPage(items, token, maxEntries, page)
  {
  }

  function Min(a: int, b: int): int {
    if a < b then a else b
  }

  // ----- Following the tokens -----

  /** Exactly these listings lose their last item. */
  predicate LosesLast(n: nat, k: nat)
    requires k >= 1
  {
    n >= 2 && (n - 1) % k == 0
  }

  /** A client that lists with page size `k` and follows tokens from "" until there is none
      terminates, never leaves the list's bounds, and sees every item once and in order,
      except exactly when the pages reach the last item but one: then only the last item is
      missing. */
  method FollowTokens<T(==)>(items: seq<T>, k: nat) returns (all: seq<T>)
    requires 1 <= k <= 0x7FFF_FFFF && |items| <= MAX_UINT32
    ensures all == if LosesLast(|items|, k) then items[..|items| - 1] else items
  {
    hide Decimal, InRange, IsPage;
    all := [];
    var token := "";
    var more := true;
    while more
      invariant more ==> |all| <= |items| && all == items[..|all|] && |all| % k == 0
      invariant more ==> TokenAt(|items|, |all|, token)
      invariant !more ==> all == if LosesLast(|items|, k) then items[..|items| - 1] else items
      decreases more, |items| - |all|
    {
      TokenInRange(|items|, |all|, token, k);
      var page := PageFrom(items, token, k);
      PageAt(items, |all|, token, k, page.value);
      ReachesEnd(|items|, |all|, k);
      all := all + page.value.entries;
      token := page.value.nextToken;
      more := token != "";
    }
  }

  /** A token that continues a listing of `n` items after `at` of them. */
  predicate TokenAt(n: nat, at: nat, token: string) {
    if token == "" then at == 0 else token == Decimal(at + 1) && 1 <= at < n - 1
  }

  lemma TokenInRange(n: nat, at: nat, token: string, k: nat)
    requires k >= 1 && n <= MAX_UINT32 && at <= n && TokenAt(n, at, token)
    ensures InRange(n, token, k)
  {
    hide Decimal, StartOf;
    TokenStarts(at);
  }

  /** The page of such a token: the next k items, and the token after them. */
  lemma PageAt<T>(items: seq<T>, at: nat, token: string, k: nat, page: Page<T>)
    requires k >= 1 && |items| <= MAX_UINT32 && at <= |items| && TokenAt(|items|, at, token)
    requires IsPage(items, token, k, page)
    ensures var end := Min(at + k, |items|);
            page == Page(items[at..end], if end < |items| - 1 then Decimal(end + 1) else "")
  {
    hide Decimal, StartOf;
    TokenStarts(at);
  }

  /** The token of position n + 1 starts a page there, and so does "" for n = 0. */
  lemma TokenStarts(n: nat)
    ensures n < MAX_UINT32 ==> StartOf(Decimal(n + 1)) == Ok(n + 1)
    ensures StartOf("") == Ok(1)
  {
    TokenRoundTrip(n + 1);
    TokenRoundTrip(1);
    assert Decimal(1) == "1";
    assert Decimal(n + 1)[0] != '0';
  }

  /** Stepping by k from a multiple of k reaches n - 1 exactly if k divides it. */
  lemma ReachesEnd(n: nat, at: nat, k: nat)
    requires k >= 1 && at % k == 0 && at <= n
    ensures (at + k) % k == 0
    ensures at < n - 1 && at + k == n - 1 ==> LosesLast(n, k)
    ensures at < n - 1 && at + k >= n ==> !LosesLast(n, k)
  {
    ModStep(at, k);
    if at < n - 1 && at + k >= n {
      var gap := n - 1 - at;
      assert 0 < gap < k;
      ModSmall(at, gap, k);
    }
  }

  lemma ModStep(a: nat, k: nat)
    requires k >= 1
    ensures (a + k) % k == a % k
  {
    assert a + k == k * (a / k + 1) + a % k;
    DivUnique(a + k, a / k + 1, a % k, k);
  }

  lemma ModSmall(a: nat, gap: nat, k: nat)
    requires k >= 1 && a % k == 0 && gap < k
    ensures (a + gap) % k == gap
  {
    assert a + gap == k * (a / k) + gap;
    DivUnique(a + gap, a / k, gap, k);
  }

  lemma DivUnique(n: nat, q: nat, r: nat, k: nat)
    requires k >= 1 && n == k * q + r && r < k
    ensures n % k == r
  {
    var d, width: int := n / k - q, k;
    assert n == k * (n / k) + n % k;
    assert k * d == k * (n / k) - k * q;
    assert -width < k * d < width;
    AtLeastOnce(width, d);
  }

  lemma AtLeastOnce(k: int, d: int)
    requires k >= 1
    ensures (d >= 1 ==> k * d >= k) && (d <= -1 ==> k * d <= -k)
  {
  }
}
