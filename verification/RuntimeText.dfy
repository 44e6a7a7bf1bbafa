/** Split, join, replace and count of the emitted runtime (src/codegen.rs), over sequences
    of string units. */
module RuntimeText {
  import opened Values

  // ------------------------------------------------------------- the functions

  predicate MatchAt(s: string, at: nat, sep: string) { at + |sep| <= |s| && s[at..at + |sep|] == sep }

  /** The pieces from `start` on, when nothing matches between `start` and `i`. */
  function SplitFrom(s: string, sep: string, start: nat, i: nat): (parts: seq<string>)
    requires sep != [] && start <= i <= |s|
    ensures parts != []
    decreases |s| - i
  {
    if i + |sep| > |s| then [s[start..]]
    else if MatchAt(s, i, sep) then [s[start..i]] + SplitFrom(s, sep, i + |sep|, i + |sep|)
    else SplitFrom(s, sep, start, i + 1)
  }

  /** An empty separator leaves the text whole. */
  function Split(s: string, sep: string): (parts: seq<string>)
    ensures parts != []
  {
    if sep == [] then [s] else SplitFrom(s, sep, 0, 0)
  }

  function Joined(sep: string, parts: seq<string>): string {
    if parts == [] then []
    else if |parts| == 1 then parts[0]
    else Joined(sep, parts[..|parts| - 1]) + sep + parts[|parts| - 1]
  }

  /** What is left of a replacement from position `i` on. */
  function ReplacedFrom(s: string, was: string, now: string, i: nat): string
    requires was != [] && i <= |s|
    decreases |s| - i
  {
    if i == |s| then []
    else if MatchAt(s, i, was) then now + ReplacedFrom(s, was, now, i + |was|)
    else [s[i]] + ReplacedFrom(s, was, now, i + 1)
  }

  // ------------------------------------------------------------ their meaning

  /** `parts` are what lies between the leftmost, non-overlapping occurrences of `sep`. */
  predicate Splits(s: string, sep: string, parts: seq<string>)
    requires sep != []
    decreases |parts|
  {
    && parts != []
    && if |parts| == 1 then s == parts[0] && forall k :: 0 <= k <= |s| ==> !MatchAt(s, k, sep)
       else
         var n := |parts[0]|;
         && n + |sep| <= |s| && s[..n] == parts[0] && MatchAt(s, n, sep)
         && (forall k :: 0 <= k < n ==> !MatchAt(s, k, sep))
         && Splits(s[n + |sep|..], sep, parts[1..])
  }

  lemma MatchShift(s: string, start: nat, k: nat, sep: string)
    requires start <= |s|
    ensures MatchAt(s[start..], k, sep) <==> MatchAt(s, start + k, sep)
  {
    if start + k + |sep| <= |s| { assert s[start..][k..k + |sep|] == s[start + k..start + k + |sep|]; }
  }

  lemma SplitsCons(t: string, sep: string, n: nat, rest: seq<string>)
    requires sep != [] && n + |sep| <= |t| && MatchAt(t, n, sep) && (forall k :: 0 <= k < n ==> !MatchAt(t, k, sep))
    requires Splits(t[n + |sep|..], sep, rest)
    ensures Splits(t, sep, [t[..n]] + rest)
  {
    hide MatchAt;
    assert ([t[..n]] + rest)[1..] == rest;
  }

  lemma NoRoom(s: string, k: nat, i: nat, sep: string)
    requires i + |sep| > |s| && k >= i
    ensures !MatchAt(s, k, sep)
  {
  }

  lemma SplitsWhole(t: string, sep: string)
    requires sep != [] && forall k :: 0 <= k <= |t| ==> !MatchAt(t, k, sep)
    ensures Splits(t, sep, [t])
  {
  }

  lemma {:induction false} SplitFromMeans(s: string, sep: string, start: nat, i: nat)
    requires sep != [] && start <= i <= |s| && forall k :: start <= k < i ==> !MatchAt(s, k, sep)
    ensures Splits(s[start..], sep, SplitFrom(s, sep, start, i))
    decreases |s| - i
  {
    hide MatchAt, Splits, SplitFrom;
    var t := s[start..];
    if i + |sep| > |s| {
      forall k | 0 <= k <= |t| ensures !MatchAt(t, k, sep) {
        MatchShift(s, start, k, sep);
        if start + k >= i { NoRoom(s, start + k, i, sep); }
      }
      SplitEnd(s, sep, start, i);
      SplitsWhole(t, sep);
    } else if MatchAt(s, i, sep) {
      SplitStep(s, sep, start, i);
      SplitFromMeans(s, sep, i + |sep|, i + |sep|);
      var n := i - start;
      assert t[n + |sep|..] == s[i + |sep|..] && t[..n] == s[start..i];
      MatchShift(s, start, n, sep);
      forall k | 0 <= k < n ensures !MatchAt(t, k, sep) { MatchShift(s, start, k, sep); }
      SplitsCons(t, sep, n, SplitFrom(s, sep, i + |sep|, i + |sep|));
    } else {
      SplitStep(s, sep, start, i);
      SplitFromMeans(s, sep, start, i + 1);
    }
  }

  lemma SplitMeans(s: string, sep: string)
    requires sep != []
    ensures Splits(s, sep, Split(s, sep))
  {
    hide Splits, SplitFrom;
    SplitFromMeans(s, sep, 0, 0);
    assert s[0..] == s;
  }

  lemma OnePiece(s: string, sep: string, p: seq<string>)
    requires sep != [] && Splits(s, sep, p)
    ensures |p| == 1 <==> forall k :: 0 <= k <= |s| ==> !MatchAt(s, k, sep)
  {
    hide MatchAt;
    assert |p| > 1 ==> MatchAt(s, |p[0]|, sep);
  }

  /** No other way of splitting has that meaning. */
  lemma {:induction false} SplitUnique(s: string, sep: string, p: seq<string>, q: seq<string>)
    requires sep != [] && Splits(s, sep, p) && Splits(s, sep, q)
    ensures p == q
    decreases |p|
  {
    hide MatchAt;
    OnePiece(s, sep, p);
    OnePiece(s, sep, q);
    if |p| > 1 {
      SameHead(s, sep, p, q);
      SplitUnique(s[|p[0]| + |sep|..], sep, p[1..], q[1..]);
      assert p == [p[0]] + p[1..] && q == [q[0]] + q[1..];
    }
  }

  lemma SameHead(s: string, sep: string, p: seq<string>, q: seq<string>)
    requires sep != [] && Splits(s, sep, p) && Splits(s, sep, q) && |p| > 1 && |q| > 1
    ensures p[0] == q[0]
  {
    hide MatchAt;
    var m, n := |p[0]|, |q[0]|;
    assert MatchAt(s, m, sep) && MatchAt(s, n, sep);
    assert m == n;
  }

  lemma {:induction false} JoinCons(sep: string, p: string, rest: seq<string>)
    requires rest != []
    ensures Joined(sep, [p] + rest) == p + sep + Joined(sep, rest)
    decreases |rest|
  {
    var all := [p] + rest;
    if |rest| == 1 {
      assert all[..1] == [p];
    } else {
      assert all[..|all| - 1] == [p] + rest[..|rest| - 1];
      JoinCons(sep, p, rest[..|rest| - 1]);
    }
  }

  /** Joining the pieces of a replaced text; with the separator itself, the text comes
      back. */
  lemma {:induction false} JoinedSplit(s: string, sep: string, now: string, start: nat, i: nat)
    requires sep != [] && start <= i <= |s|
    ensures Joined(now, SplitFrom(s, sep, start, i)) == s[start..i] + ReplacedFrom(s, sep, now, i)
    decreases |s| - i
  {
    hide Joined, MatchAt, SplitFrom, ReplacedFrom;
    if i + |sep| > |s| {
      NoMatchLeft(s, sep, now, i);
      assert s[start..] == s[start..i] + s[i..];
      JoinedOne(now, s[start..]);
      SplitEnd(s, sep, start, i);
    } else if MatchAt(s, i, sep) {
      SplitStep(s, sep, start, i);
      ReplacedStep(s, sep, now, i);
      var k := i + |sep|;
      JoinedSplit(s, sep, now, k, k);
      JoinedMatch(s[start..i], now, SplitFrom(s, sep, k, k), ReplacedFrom(s, sep, now, k), s[k..k]);
    } else {
      SplitStep(s, sep, start, i);
      ReplacedStep(s, sep, now, i);
      JoinedSplit(s, sep, now, start, i + 1);
      assert s[start..i + 1] == s[start..i] + [s[i]];
    }
  }

  lemma SplitEnd(s: string, sep: string, start: nat, i: nat)
    requires start <= i <= |s| && i + |sep| > |s|
    ensures SplitFrom(s, sep, start, i) == [s[start..]]
  {
  }

  lemma SplitStep(s: string, sep: string, start: nat, i: nat)
    requires sep != [] && start <= i && i + |sep| <= |s|
    ensures SplitFrom(s, sep, start, i) ==
            if MatchAt(s, i, sep) then [s[start..i]] + SplitFrom(s, sep, i + |sep|, i + |sep|) else SplitFrom(s, sep, start, i + 1)
  {
  }

  lemma ReplacedStep(s: string, was: string, now: string, i: nat)
    requires was != [] && i < |s|
    ensures ReplacedFrom(s, was, now, i) ==
            if MatchAt(s, i, was) then now + ReplacedFrom(s, was, now, i + |was|) else [s[i]] + ReplacedFrom(s, was, now, i + 1)
  {
  }

  lemma JoinedOne(sep: string, p: string)
    ensures Joined(sep, [p]) == p
  {
  }

  lemma JoinedMatch(head: string, now: string, rest: seq<string>, tail: string, none: string)
    requires rest != [] && none == [] && Joined(now, rest) == none + tail
    ensures Joined(now, [head] + rest) == head + (now + tail)
  {
    hide Joined;
    JoinCons(now, head, rest);
    assert none + tail == tail;
    assert head + now + tail == head + (now + tail);
  }

  lemma {:induction false} NoMatchLeft(s: string, sep: string, now: string, i: nat)
    requires sep != [] && i <= |s| < i + |sep|
    ensures ReplacedFrom(s, sep, now, i) == s[i..]
    decreases |s| - i
  {
    if i < |s| { NoMatchLeft(s, sep, now, i + 1); }
  }

  lemma {:induction false} ReplaceSelf(s: string, sep: string, i: nat)
    requires sep != [] && i <= |s|
    ensures ReplacedFrom(s, sep, sep, i) == s[i..]
    decreases |s| - i
  {
    if i < |s| {
      if MatchAt(s, i, sep) {
        ReplaceSelf(s, sep, i + |sep|);
        assert s[i..] == s[i..i + |sep|] + s[i + |sep|..];
      } else {
        ReplaceSelf(s, sep, i + 1);
        assert s[i..] == [s[i]] + s[i + 1..];
      }
    }
  }

  /** `sep.join(s.split(sep)) == s`, for every separator. */
  lemma JoinUndoesSplit(s: string, sep: string)
    ensures Joined(sep, Split(s, sep)) == s
  {
    if sep != [] {
      JoinedSplit(s, sep, sep, 0, 0);
      ReplaceSelf(s, sep, 0);
    }
  }

  // ------------------------------------------------------------------- lengths

  function TotalLength(parts: seq<string>): nat {
    if parts == [] then 0 else TotalLength(parts[..|parts| - 1]) + |parts[|parts| - 1]|
  }

  lemma {:induction false} JoinedLength(sep: string, parts: seq<string>)
    ensures |Joined(sep, parts)| == TotalLength(parts) + (if parts == [] then 0 else |sep| * (|parts| - 1))
    decreases |parts|
  {
    if parts != [] {
      var init := parts[..|parts| - 1];
      JoinedLength(sep, init);
      if init == [] {
        assert TotalLength(init) == 0;
      } else {
        assert |sep| * (|init| - 1) + |sep| == |sep| * (|parts| - 1) by { Distribute(|sep|, |init|); }
      }
    }
  }

  lemma Distribute(a: int, n: int)
    ensures a * (n - 1) + a == a * n
  {
  }

  /** The length the replacement's first pass predicts. */
  lemma ReplacedLength(s: string, was: string, now: string)
    requires was != []
    ensures |Joined(now, Split(s, was))| == |s| + (|Split(s, was)| - 1) * (|now| - |was|)
  {
    var parts := Split(s, was);
    JoinedLength(now, parts);
    JoinedLength(was, parts);
    JoinUndoesSplit(s, was);
    var k := |parts| - 1;
    assert k * (|now| - |was|) == |now| * k - |was| * k;
  }

  // ------------------------------------------------------------------ the code

  /** `$str_match_at`. */
  method FindsAt(h: string, at: nat, sep: string) returns (yes: bool)
    requires at + |sep| <= |h|
    ensures yes <==> MatchAt(h, at, sep)
  {
    var j := 0;
    while j < |sep|
      invariant 0 <= j <= |sep| && h[at..at + j] == sep[..j]
    {
      if h[at + j] != sep[j] {
        assert h[at..at + |sep|][j] != sep[j];
        return false;
      }
      assert h[at..at + j + 1] == h[at..at + j] + [h[at + j]];
      j := j + 1;
    }
    assert sep[..j] == sep;
    yes := true;
  }

  /** `$str_split` with a separator. */
  method SplitText(s: string, sep: string) returns (parts: seq<string>)
    requires |s| + |sep| <= I32_MAX
    ensures parts == Split(s, sep)
  {
    if |sep| == 0 { return [s]; }
    parts := [];
    var start, i := 0, 0;
    while i + |sep| <= |s|
      invariant 0 <= start <= i <= |s|
      invariant parts + SplitFrom(s, sep, start, i) == Split(s, sep)
      decreases |s| - i
    {
      var found := FindsAt(s, i, sep);
      if found {
        assert parts + ([s[start..i]] + SplitFrom(s, sep, i + |sep|, i + |sep|)) == parts + [s[start..i]] + SplitFrom(s, sep, i + |sep|, i + |sep|);
        parts := parts + [s[start..i]];
        i := i + |sep|;
        start := i;
      } else {
        i := i + 1;
      }
    }
    parts := parts + [s[start..]];
  }

  /** `$str_count`: for the empty text, one more than the length. */
  method CountText(s: string, sub: string) returns (count: nat)
    requires |s| + |sub| <= I32_MAX
    ensures count == if sub == [] then |s| + 1 else |Split(s, sub)| - 1
  {
    if |sub| == 0 { return |s| + 1; }
    count := CountMatches(s, sub);
  }

  method CountMatches(s: string, sub: string) returns (count: nat)
    requires sub != [] && |s| + |sub| <= I32_MAX
    ensures count == |Split(s, sub)| - 1
  {
    hide SplitFrom, MatchAt;
    count := 0;
    var i := 0;
    ghost var start := 0;
    while i + |sub| <= |s|
      invariant 0 <= start <= i <= |s|
      invariant count + |SplitFrom(s, sub, start, i)| == |Split(s, sub)|
      decreases |s| - i
    {
      SplitStep(s, sub, start, i);
      var found := FindsAt(s, i, sub);
      if found {
        count := count + 1;
        i := i + |sub|;
        start := i;
      } else {
        i := i + 1;
      }
    }
    SplitEnd(s, sub, start, i);
  }

  /** `$scopy`. */
  method Copy(out: array<char>, at: nat, text: string)
    requires at + |text| <= out.Length
    modifies out
    ensures out[..at + |text|] == old(out[..at]) + text
  {
    forall k | 0 <= k < |text| { out[at + k] := text[k]; }
  }

  /** `$str_join`: measures, allocates, fills; every write is in range and the array is
      filled to its end. */
  method JoinText(sep: string, parts: seq<string>) returns (out: array<char>)
    requires |Joined(sep, parts)| <= I32_MAX
    ensures fresh(out) && out[..] == Joined(sep, parts)
  {
    assert TotalLength(parts[..0]) == 0 && Joined(sep, parts[..0]) == [];
    hide Joined, TotalLength;
    var total := 0;
    var i := 0;
    while i < |parts|
      invariant 0 <= i <= |parts| && total == TotalLength(parts[..i])
    {
      LengthSnoc(parts, i);
      total := total + |parts[i]|;
      i := i + 1;
    }
    assert parts[..i] == parts;
    if |parts| > 0 { total := total + |sep| * (|parts| - 1); }
    JoinedLength(sep, parts);
    out := new char[total];
    i := 0;
    var pos := 0;
    while i < |parts|
      invariant 0 <= i <= |parts| && fresh(out) && 0 <= pos <= out.Length == |Joined(sep, parts)|
      invariant out[..pos] == Joined(sep, parts[..i])
    {
      JoinSnoc(sep, parts, i);
      JoinPrefix(sep, parts, i + 1);
      if i > 0 {
        Copy(out, pos, sep);
        pos := pos + |sep|;
      }
      Copy(out, pos, parts[i]);
      pos := pos + |parts[i]|;
      i := i + 1;
    }
    assert parts[..i] == parts;
    assert out[..] == out[..pos];
  }

  lemma LengthSnoc(parts: seq<string>, i: nat)
    requires i < |parts|
    ensures TotalLength(parts[..i + 1]) == TotalLength(parts[..i]) + |parts[i]|
  {
    assert parts[..i + 1][..i] == parts[..i];
  }

  lemma JoinSnoc(sep: string, parts: seq<string>, i: nat)
    requires i < |parts|
    ensures Joined(sep, parts[..i + 1]) == (if i == 0 then [] else Joined(sep, parts[..i]) + sep) + parts[i]
  {
    assert parts[..i + 1][..i] == parts[..i];
  }

  lemma {:induction false} JoinPrefix(sep: string, parts: seq<string>, i: nat)
    requires i <= |parts|
    ensures |Joined(sep, parts[..i])| <= |Joined(sep, parts)|
    decreases |parts| - i
  {
    if i < |parts| {
      JoinPrefix(sep, parts, i + 1);
      JoinSnoc(sep, parts, i);
      if i == 0 { assert Joined(sep, parts[..0]) == []; }
    } else {
      assert parts[..i] == parts;
    }
  }

  /** `$str_replace`: counts, allocates exactly, fills. */
  method ReplaceText(s: string, was: string, now: string) returns (r: string)
    requires |s| + |was| <= I32_MAX && |Joined(now, Split(s, was))| <= I32_MAX
    ensures r == if was == [] then s else Joined(now, Split(s, was))
  {
    hide Joined, SplitFrom, MatchAt, ReplacedFrom;
    var n, ol, nl := |s|, |was|, |now|;
    if ol == 0 { return s; }
    var count := CountMatches(s, was);
    var total := n + count * (nl - ol);
    ReplacedLength(s, was, now);
    var out := new char[total];
    JoinedSplit(s, was, now, 0, 0);
    assert Joined(now, Split(s, was)) == ReplacedFrom(s, was, now, 0);
    Fill(out, s, was, now);
    r := out[..];
  }

  /** The second pass: exactly fills the array, and never writes past it. */
  method Fill(out: array<char>, s: string, was: string, now: string)
    requires was != [] && out.Length == |ReplacedFrom(s, was, now, 0)|
    modifies out
    ensures out[..] == ReplacedFrom(s, was, now, 0)
  {
    assert ReplacedFrom(s, was, now, |s|) == [];
    hide MatchAt, ReplacedFrom;
    ghost var whole := ReplacedFrom(s, was, now, 0);
    var n := |s|;
    var i, pos := 0, 0;
    while i < n
      invariant 0 <= i <= n && 0 <= pos <= out.Length == |whole|
      invariant out[..pos] + ReplacedFrom(s, was, now, i) == whole
      decreases n - i
    {
      i, pos := FillOne(out, s, was, now, i, pos);
    }
    assert out[..] == out[..pos];
  }

  /** One occurrence replaced, or one unit copied. */
  method FillOne(out: array<char>, s: string, was: string, now: string, i: nat, pos: nat) returns (i2: nat, pos2: nat)
    requires was != [] && i < |s| && pos + |ReplacedFrom(s, was, now, i)| == out.Length
    modifies out
    ensures i < i2 <= |s| && pos2 <= out.Length
    ensures out[..pos2] + ReplacedFrom(s, was, now, i2) == old(out[..pos]) + ReplacedFrom(s, was, now, i)
  {
    hide MatchAt, ReplacedFrom;
    ghost var done := out[..pos];
    FillStep(s, was, now, i, done, done + ReplacedFrom(s, was, now, i));
    var mt := Matches(s, was, i);
    if mt {
      Copy(out, pos, now);
      i2, pos2 := i + |was|, pos + |now|;
    } else {
      Copy(out, pos, [s[i]]);
      i2, pos2 := i + 1, pos + 1;
    }
  }

  method Matches(s: string, was: string, i: nat) returns (mt: bool)
    requires i <= |s|
    ensures mt <==> MatchAt(s, i, was)
  {
    mt := false;
    if i + |was| <= |s| { mt := FindsAt(s, i, was); }
  }

  lemma FillStep(s: string, was: string, now: string, i: nat, done: string, whole: string)
    requires was != [] && i < |s| && done + ReplacedFrom(s, was, now, i) == whole
    ensures if MatchAt(s, i, was)
            then i + |was| <= |s| && done + now + ReplacedFrom(s, was, now, i + |was|) == whole && |done| + |now| <= |whole|
            else done + [s[i]] + ReplacedFrom(s, was, now, i + 1) == whole && |done| < |whole|
  {
    if MatchAt(s, i, was) {
      assert done + (now + ReplacedFrom(s, was, now, i + |was|)) == done + now + ReplacedFrom(s, was, now, i + |was|);
    } else {
      assert done + ([s[i]] + ReplacedFrom(s, was, now, i + 1)) == done + [s[i]] + ReplacedFrom(s, was, now, i + 1);
    }
  }
}
