/** ap_getparents: the four passes that resolve "." and ".." in place, in a buffer that holds a
    text up to its terminating zero. The passes are proved to do what `Paths.Resolve` says. */
module PathNormalizer {
  import opened CStrings
  import opened Paths

  // ---------- what the passes do to the text ----------

  /** Passes a and b: every "./" segment goes, and a "." at the end. `start` says that a segment
      begins here. */
  function SkipDots(s: string, start: bool): string {
    if s == "" then ""
    else if start && |s| > 1 && s[0] == '.' && s[1] == '/' then SkipDots(s[2..], true)
    else [s[0]] + SkipDots(s[1..], s[0] == '/')
  }

  function TrimDot(s: string): string {
    if s == "." then ""
    else if |s| > 1 && s[|s| - 1] == '.' && s[|s| - 2] == '/' then s[..|s| - 1]
    else s
  }

  /** Where the segment starts that ends at i. */
  function SegmentStart(s: string, i: int): (k: nat)
    requires i < |s|
    ensures k <= i + 1 || k == 0
  {
    if i < 0 then 0 else if s[i] == '/' then i + 1 else SegmentStart(s, i - 1)
  }

  /** The text without its last segment; it ends with a slash or is empty. */
  function Up(done: string): string {
    done[..SegmentStart(done, |done| - 2)]
  }

  predicate AtStart(done: string) { done == "" || done[|done| - 1] == '/' }

  predicate Parent(rest: string) { |rest| > 2 && rest[0] == '.' && rest[1] == '.' && rest[2] == '/' }

  /** Pass c: a "../" segment goes, and the one before it if there is one. */
  function Climb(done: string, rest: string): string
    decreases |rest|
  {
    if rest == "" then done
    else if Parent(rest) && AtStart(done) then Climb(Up(done), rest[3..])
    else Climb(done + [rest[0]], rest[1..])
  }

  /** Pass d: the same for ".." at the end. */
  function TrimParent(s: string): string {
    if |s| > 1 && s[|s| - 1] == '.' && s[|s| - 2] == '.' && AtStart(s[..|s| - 2]) then Up(s[..|s| - 2]) else s
  }

  function Passes(s: string): string {
    TrimParent(Climb("", TrimDot(SkipDots(s, true))))
  }

  // ---------- the code ----------

  lemma {:induction false} SkipNothing(s: string, k: nat, start: bool)
    requires k <= |s| && '.' !in s[..k]
    ensures SkipDots(s, start) == s[..k] + SkipDots(s[k..], if k == 0 then start else s[k - 1] == '/')
    decreases k
  {
    if k == 0 {
      assert s[k..] == s;
    } else {
      assert s[0] in s[..k] && s[1..][..k - 1] == s[..k][1..];
      SkipNothing(s[1..], k - 1, s[0] == '/');
      assert s[1..][k - 1..] == s[k..];
      assert [s[0]] + s[1..][..k - 1] == s[..k];
    }
  }

  lemma {:induction false} ClimbNothing(done: string, s: string, k: nat)
    requires k <= |s| && '.' !in s[..k]
    ensures Climb(done, s) == Climb(done + s[..k], s[k..])
    decreases k
  {
    if k == 0 {
      assert s[k..] == s && done + s[..k] == done;
    } else {
      assert s[0] in s[..k] && s[1..][..k - 1] == s[..k][1..];
      ClimbNothing(done + [s[0]], s[1..], k - 1);
      assert s[1..][k - 1..] == s[k..];
      assert done + [s[0]] + s[1..][..k - 1] == done + s[..k];
    }
  }

  /** The search for the first dot. */
  method FirstDot(name: array<char>) returns (next: nat)
    requires IsText(name[..])
    ensures next <= Length(name[..]) && '.' !in Text(name[..])[..next]
  {
    next := 0;
    while name[next] != NUL && name[next] != '.'
      invariant next <= Length(name[..]) && '.' !in name[..next]
      decreases Length(name[..]) - next
    {
      TextIndex(name[..], next);
      next := next + 1;
    }
    assert Text(name[..])[..next] == name[..next];
  }

  /** Passes a and b. */
  method SkipDotSegments(name: array<char>, first: nat)
    requires IsText(name[..]) && first <= Length(name[..]) && '.' !in Text(name[..])[..first]
    modifies name
    ensures IsText(name[..]) && Text(name[..]) == TrimDot(SkipDots(old(Text(name[..])), true))
    ensures first <= Length(name[..]) && '.' !in Text(name[..])[..first]
  {
    ghost var s := Text(name[..]);
    var w := DropDotSegments(name, first);
    var v := w;
    if w == 1 && name[0] == '.' {
      v := v - 1;
    } else if w > 1 && name[w - 1] == '.' && name[w - 2] == '/' {
      v := v - 1;
    }
    ghost var t := name[..w];
    assert t[..first] == name[..first] == s[..first];
    assert v < w ==> first < w by { assert first == w ==> '.' !in t; }
    name[v] := NUL;
    assert name[..v] == t[..v] == TrimDot(t);
    assert t[..v][..first] == t[..first];
    assert NUL !in t[..v];
    TextEnds(name[..], v);
  }

  lemma {:induction false} SkipStep(s: string, l: nat)
    requires l < |s|
    ensures var start := l == 0 || s[l - 1] == '/';
      SkipDots(s[l..], start) ==
        if start && l + 1 < |s| && s[l] == '.' && s[l + 1] == '/' then SkipDots(s[l + 2..], true)
        else [s[l]] + SkipDots(s[l + 1..], s[l] == '/')
  {
    assert s[l..][0] == s[l] && s[l..][1..] == s[l + 1..];
    assert l + 1 < |s| ==> s[l..][1] == s[l + 1] && s[l..][2..] == s[l + 2..];
  }

  method CopyBack(name: array<char>, w: nat, l: nat)
    requires w <= l < name.Length
    modifies name
    ensures name[..w + 1] == old(name[..w]) + [old(name[l])]
    ensures forall i :: w < i < name.Length ==> name[i] == old(name[i])
  {
    name[w] := name[l];
  }

  lemma {:induction false} NextPiece(front: string, c: char, more: string)
    ensures front + [c] + more == front + ([c] + more)
  {
  }

  /** In pass a: the buffer holds what was kept up to w and the rest of s from l on. */
  ghost predicate Skipping(name: array<char>, w: nat, l: nat, s: string)
    reads name
  {
    && w <= l <= |s| < name.Length && name[|s|] == NUL && NUL !in name[..w] && NUL !in s
    && name[l..|s|] == s[l..]
    && (l > 0 ==> name[l - 1] == s[l - 1])
    && name[..w] + SkipDots(s[l..], l == 0 || s[l - 1] == '/') == SkipDots(s, true)
  }

  method SkipOn(name: array<char>, w: nat, l: nat, ghost s: string) returns (w2: nat, l2: nat)
    requires Skipping(name, w, l, s) && name[l] != NUL
    modifies name
    ensures Skipping(name, w2, l2, s) && w <= w2 && l < l2
    ensures forall i :: 0 <= i < w ==> name[i] == old(name[i])
  {
    assert l < |s| && name[l..|s|][0] == name[l] == s[l];
    assert l + 1 < |s| ==> name[l..|s|][1] == name[l + 1] == s[l + 1];
    SkipStep(s, l);
    if name[l] == '.' && name[l + 1] == '/' && (l == 0 || name[l - 1] == '/') {
      assert name[l + 2..|s|] == name[l..|s|][2..];
      w2, l2 := w, l + 2;
    } else {
      NextPiece(name[..w], s[l], SkipDots(s[l + 1..], s[l] == '/'));
      assert s[l] in s;
      assert name[l + 1..|s|] == name[l..|s|][1..];
      CopyBack(name, w, l);
      w2, l2 := w + 1, l + 1;
    }
  }

  /** Pass a; the text ends before w, but the zero is not written yet. */
  method DropDotSegments(name: array<char>, first: nat) returns (w: nat)
    requires IsText(name[..]) && first <= Length(name[..]) && '.' !in Text(name[..])[..first]
    modifies name
    ensures first <= w <= old(Length(name[..])) < name.Length
    ensures name[..w] == SkipDots(old(Text(name[..])), true) && NUL !in name[..w]
    ensures name[..first] == old(name[..first])
  {
    ghost var s := Text(name[..]);
    var l := first;
    w := first;
    SkipNothing(s, first, true);
    while name[l] != NUL
      invariant first <= w && Skipping(name, w, l, s)
      invariant forall i :: 0 <= i < first ==> name[i] == s[i]
      decreases |s| - l
    {
      w, l := SkipOn(name, w, l, s);
    }
    assert s[l..] == "" && name[..w] + "" == name[..w];
    assert s[..first] == old(name[..first]);
  }

  /** The start of the segment before position l, searched backwards. */
  method ParentStart(name: array<char>, l: nat) returns (k: nat)
    requires l <= name.Length
    ensures k <= l && name[..k] == Up(name[..l])
  {
    var i := l - 2;
    if i >= 0 {
      while i >= 0 && name[i] != '/'
        invariant -1 <= i < l
        invariant SegmentStart(name[..l], l - 2) == SegmentStart(name[..l], i)
      {
        i := i - 1;
      }
      i := i + 1;
    } else {
      i := 0;
    }
    k := i;
    assert k == SegmentStart(name[..l], l - 2);
    assert name[..l][..k] == name[..k];
  }

  /** In a copy of the text at m down to k: b[m..j] has arrived, and what is behind it is as it was. */
  ghost predicate Moving(name: string, b: string, k: nat, m: nat, j: nat) {
    && k < m <= j <= |b| == |name|
    && name[..k + j - m] == b[..k] + b[m..j]
    && name[k + j - m..] == b[k + j - m..]
  }

  /** The next character arrives. */
  method MoveOne(name: array<char>, i: nat, j: nat, ghost b: string, ghost k: nat, ghost m: nat)
    requires Moving(name[..], b, k, m, j) && i == k + j - m && j < |b|
    modifies name
    ensures Moving(name[..], b, k, m, j + 1) && name[i] == b[j]
  {
    ghost var was := name[..];
    assert was[j] == was[i..][j - i] == b[i..][j - i] == b[j];
    name[i] := name[j];
    assert b[m..j + 1] == b[m..j] + [b[j]];
    assert name[..i] == was[..i];
    assert name[..i + 1] == name[..i] + [b[j]];
    assert name[i + 1..] == was[i..][1..] == b[i..][1..];
    assert name[..][..i + 1] == name[..i + 1] && name[..][i + 1..] == name[i + 1..];
  }

  lemma {:induction false} Moved(name: string, b: string, k: nat, m: nat, n: nat)
    requires Moving(name, b, k, m, n + 1)
    ensures m <= n ==> name[..k] == b[..k] && name[k..k + n - m] == b[m..n]
  {
    if m <= n {
      var head := name[..k + n + 1 - m];
      assert name[..k] == head[..k] == b[..k];
      assert name[k..k + n - m] == head[k..][..n - m] == b[m..n + 1][..n - m];
    }
  }

  /** Copies the text that begins at m down to k, zero included. */
  method MoveDown(name: array<char>, k: nat, m: nat, ghost n: nat)
    requires k < m <= n < name.Length && name[n] == NUL && NUL !in name[m..n]
    modifies name
    ensures name[..k] == old(name[..k]) && name[k..k + n - m] == old(name[m..n]) && name[k + n - m] == NUL
  {
    ghost var b := name[..];
    assert b[m..n] == name[m..n];
    forall x | m <= x < n ensures b[x] != NUL { assert b[x] == b[m..n][x - m]; }
    var i, j := k, m;
    assert Moving(name[..], b, k, m, m) by { assert b[..k] + b[m..m] == b[..k]; }
    MoveOne(name, i, j, b, k, m);
    while name[i] != NUL
      invariant i == k + j - m && m <= j <= n && Moving(name[..], b, k, m, j + 1) && name[i] == b[j]
      decreases n - j
    {
      assert j < n;
      i, j := i + 1, j + 1;
      MoveOne(name, i, j, b, k, m);
    }
    Moved(name[..], b, k, m, n);
  }

  lemma {:induction false} ClimbStep(t: string, l: nat)
    requires l < |t|
    ensures Climb(t[..l], t[l..]) ==
      if l + 2 < |t| && t[l] == '.' && t[l + 1] == '.' && t[l + 2] == '/' && (l == 0 || t[l - 1] == '/')
      then Climb(Up(t[..l]), t[l + 3..]) else Climb(t[..l + 1], t[l + 1..])
  {
    assert t[..l] + [t[l]] == t[..l + 1] && t[l..][1..] == t[l + 1..];
    assert l + 2 < |t| ==> t[l..][3..] == t[l + 3..] && t[l..][1] == t[l + 1] && t[l..][2] == t[l + 2];
  }

  /** One turn of pass c that removes a "../" segment at l; n is the end of the text. */
  method RemoveParent(name: array<char>, l: nat, ghost n: nat) returns (k: nat)
    requires l + 3 <= n < name.Length && name[n] == NUL && NUL !in name[..n]
    modifies name
    ensures var n1 := k + n - (l + 3);
      && k <= l && n1 < name.Length && name[n1] == NUL && NUL !in name[..n1]
      && name[..k] == Up(old(name[..l])) && name[k..n1] == old(name[l + 3..n])
  {
    k := ParentStart(name, l);
    ghost var front, rest := name[..k], name[l + 3..n];
    assert front == name[..n][..k] && rest == name[..n][l + 3..];
    MoveDown(name, k, l + 3, n);
    assert name[..k + n - (l + 3)] == front + rest;
  }

  /** In pass c: the text ends at n, and what is left to do from l on gives the result for s. */
  ghost predicate Climbing(name: array<char>, l: nat, n: nat, s: string)
    reads name
  {
    && l <= n < name.Length && name[n] == NUL && NUL !in name[..n]
    && Climb(name[..l], name[l..n]) == Climb("", s)
  }

  /** Whether the code sees a "../" segment at l. */
  predicate ParentAt(b: string, l: nat)
    requires l < |b| && b[|b| - 1] == NUL
  {
    b[l] == '.' && b[l + 1] == '.' && b[l + 2] == '/' && (l == 0 || b[l - 1] == '/')
  }

  lemma {:induction false} ClimbTurn(b: string, l: nat, n: nat)
    requires l < n < |b| && b[n] == NUL && NUL !in b[..n] && b[|b| - 1] == NUL
    ensures ParentAt(b, l) ==> l + 3 <= n && Climb(b[..l], b[l..n]) == Climb(Up(b[..l]), b[l + 3..n])
    ensures !ParentAt(b, l) ==> Climb(b[..l], b[l..n]) == Climb(b[..l + 1], b[l + 1..n])
  {
    var t := b[..n];
    assert t[..l] == b[..l] && t[l..] == b[l..n] && t[..l + 1] == b[..l + 1] && t[l + 1..] == b[l + 1..n];
    assert t[l] == b[l] && (l > 0 ==> t[l - 1] == b[l - 1]) && (l + 1 < n ==> t[l + 1] == b[l + 1]);
    assert l + 2 < n ==> t[l + 2] == b[l + 2] && t[l + 3..] == b[l + 3..n];
    ClimbStep(t, l);
  }

  method ClimbOn(name: array<char>, l: nat, ghost n: nat, ghost s: string) returns (k: nat, ghost m: nat)
    requires Climbing(name, l, n, s) && name[l] != NUL
    modifies name
    ensures Climbing(name, k, m, s) && m - k < n - l
  {
    ghost var b := name[..n + 1];
    assert b[..n] == name[..n] && b[..l] == name[..l] && b[l..n] == name[l..n];
    ClimbTurn(b, l, n);
    if name[l] == '.' && name[l + 1] == '.' && name[l + 2] == '/' && (l == 0 || name[l - 1] == '/') {
      assert ParentAt(b, l);
      assert b[l + 3..n] == name[l + 3..n];
      k := RemoveParent(name, l, n);
      m := k + n - (l + 3);
    } else {
      assert !ParentAt(b, l);
      assert b[..l + 1] == name[..l + 1] && b[l + 1..n] == name[l + 1..n];
      k, m := l + 1, n;
    }
  }

  /** Pass c: returns the end of the text. */
  method PopParents(name: array<char>, first: nat) returns (l: nat)
    requires IsText(name[..]) && first <= Length(name[..]) && '.' !in Text(name[..])[..first]
    modifies name
    ensures IsText(name[..]) && Text(name[..]) == Climb("", old(Text(name[..]))) && l == Length(name[..])
  {
    ghost var s := Text(name[..]);
    ghost var n: nat := Length(name[..]);
    l := first;
    ClimbNothing("", s, first);
    assert "" + s[..first] == name[..first] && s[first..] == name[first..n];
    while name[l] != NUL
      invariant Climbing(name, l, n, s)
      decreases n - l
    {
      l, n := ClimbOn(name, l, n, s);
    }
    TextEnds(name[..], n);
    TextIndex(name[..], l);
    assert name[l..n] == "";
  }

  /** Pass d. */
  method PopLast(name: array<char>, l: nat)
    requires IsText(name[..]) && l == Length(name[..])
    modifies name
    ensures IsText(name[..]) && Text(name[..]) == TrimParent(old(Text(name[..])))
  {
    ghost var s := Text(name[..]);
    if l == 2 && name[0] == '.' && name[1] == '.' {
      name[0] := NUL;
      TextEnds(name[..], 0);
      assert s[..0] == "" && Up("") == "";
    } else if l > 2 && name[l - 1] == '.' && name[l - 2] == '.' && name[l - 3] == '/' {
      var k := ParentStart(name, l - 2);
      assert s[..l - 2] == name[..l - 2];
      ghost var up := name[..k];
      assert up == s[..k];
      name[k] := NUL;
      assert name[..k] == up;
      TextEnds(name[..], k);
    }
  }

  /** The whole of ap_getparents. */
  method GetParents(name: array<char>)
    requires IsText(name[..])
    modifies name
    ensures IsText(name[..]) && Text(name[..]) == Resolve(old(Text(name[..])))
  {
    ghost var s := Text(name[..]);
    var first := FirstDot(name);
    SkipDotSegments(name, first);
    var l := PopParents(name, first);
    PopLast(name, l);
    PassesResolve(s);
  }

  // ---------- the passes, one segment at a time ----------

  /** What pass a leaves of the segments but the last. */
  function Kept(segs: seq<string>): seq<string> {
    if segs == [] then [] else if segs[0] == "." then Kept(segs[1..]) else [segs[0]] + Kept(segs[1..])
  }

  lemma {:induction false} SkipInside(seg: string, rest: string, start: bool)
    requires NoSlash(seg) && (start ==> !(seg == "." && rest != "" && rest[0] == '/'))
    ensures SkipDots(seg + rest, start) == seg + SkipDots(rest, start && seg == "")
    decreases seg
  {
    if seg == "" {
      assert seg + rest == rest && SkipDots(rest, start) == seg + SkipDots(rest, start);
    } else {
      var s := seg + rest;
      assert s[0] == seg[0] && s[1..] == seg[1..] + rest;
      assert seg[0] in seg && seg[0] != '/';
      assert |seg| > 1 ==> s[1] == seg[1] && seg[1] in seg;
      SkipInside(seg[1..], rest, false);
      assert [seg[0]] + (seg[1..] + SkipDots(rest, false)) == seg + SkipDots(rest, false);
    }
  }

  lemma {:induction false} SkipSegment(seg: string, rest: string)
    requires NoSlash(seg)
    ensures SkipDots(seg + "/" + rest, true) == (if seg == "." then "" else seg + "/") + SkipDots(rest, true)
  {
    var s := seg + "/" + rest;
    if seg == "." {
      assert s[0] == '.' && s[1] == '/' && s[2..] == rest;
    } else {
      assert s == seg + ("/" + rest);
      SkipInsideOrNot(seg, rest);
    }
  }

  lemma {:induction false} SkipInsideOrNot(seg: string, rest: string)
    requires NoSlash(seg) && seg != "."
    ensures SkipDots(seg + ("/" + rest), true) == seg + "/" + SkipDots(rest, true)
  {
    var r := "/" + rest;
    SkipInside(seg, r, true);
    assert r[1..] == rest;
    assert SkipDots(r, seg == "") == "/" + SkipDots(rest, true);
    assert seg + ("/" + SkipDots(rest, true)) == seg + "/" + SkipDots(rest, true);
  }

  lemma {:induction false} KeptCons(seg: string, rest: seq<string>, last: string)
    ensures (if seg == "." then "" else seg + "/") + (Slashed(Kept(rest)) + last) == Slashed(Kept([seg] + rest)) + last
  {
    var kept := Kept(rest);
    assert ([seg] + rest)[1..] == rest && ([seg] + kept)[1..] == kept;
    assert seg + "/" + (Slashed(kept) + last) == seg + "/" + Slashed(kept) + last;
    assert "" + (Slashed(kept) + last) == Slashed(kept) + last;
  }

  lemma {:induction false} SkipSegments(init: seq<string>, last: string)
    requires NoSlashes(init) && NoSlash(last)
    ensures SkipDots(Slashed(init) + last, true) == Slashed(Kept(init)) + last
    decreases |init|
  {
    if init == [] {
      assert Slashed(init) + last == last + "" == Slashed(Kept(init)) + last;
      SkipInside(last, "", true);
    } else {
      assert init[0] in init && init == [init[0]] + init[1..];
      SkipSegment(init[0], Slashed(init[1..]) + last);
      assert Slashed(init) + last == init[0] + "/" + (Slashed(init[1..]) + last);
      SkipSegments(init[1..], last);
      KeptCons(init[0], init[1..], last);
    }
  }

  lemma {:induction false} SlashedEnds(stack: seq<string>)
    ensures AtStart(Slashed(stack))
  {
    if stack != [] {
      var p, x := stack[..|stack| - 1], stack[|stack| - 1];
      assert stack == p + [x] && [x][1..] == [];
      SlashedConcat(p, [x]);
      assert Slashed([x]) == x + "/" + "";
    }
  }

  /** A last segment behind a text that ends with a slash or is empty. */
  lemma {:induction false} TrimDotLast(front: string, last: string)
    requires AtStart(front) && NoSlash(last)
    ensures TrimDot(front + last) == front + (if last == "." then "" else last)
  {
    var t := front + last;
    if last == "." {
      assert t[..|t| - 1] == front && front + "" == front;
    } else if last == "" {
      assert t == front;
    } else {
      assert |last| > 1 ==> t[|t| - 2] == last[|last| - 2] && last[|last| - 2] in last;
      assert t[|t| - 1] == last[|last| - 1];
      assert |last| == 1 && last[0] == '.' ==> last == ".";
    }
  }

  lemma {:induction false} TrimParentLast(front: string, last: string)
    requires AtStart(front) && NoSlash(last)
    ensures TrimParent(front + last) == if last == ".." then Up(front) else front + last
  {
    var t := front + last;
    if last == ".." {
      assert t[..|t| - 2] == front;
    } else if last == "" {
      assert t == front;
    } else if |last| == 1 {
      assert |t| > 1 ==> t[|t| - 2] == front[|front| - 1];
    } else {
      assert t[|t| - 1] == last[|last| - 1] && t[|t| - 2] == last[|last| - 2];
      if |last| == 2 {
        assert last == [last[0], last[1]];
      } else {
        assert t[..|t| - 2][|t| - 3] == last[|last| - 3] && last[|last| - 3] in last;
      }
    }
  }

  lemma {:induction false} ScanBack(s: string, i: int, j: int)
    requires -1 <= j <= i < |s| && forall x :: j < x <= i ==> s[x] != '/'
    ensures SegmentStart(s, i) == SegmentStart(s, j)
    decreases i - j
  {
    if j < i { ScanBack(s, i - 1, j); }
  }

  lemma {:induction false} UpSlashed(stack: seq<string>)
    requires NoSlashes(stack)
    ensures Up(Slashed(stack)) == Slashed(Pop(stack))
  {
    if stack != [] {
      var p, x := stack[..|stack| - 1], stack[|stack| - 1];
      assert stack == p + [x] && [x][1..] == [];
      SlashedConcat(p, [x]);
      var front, d := Slashed(p), Slashed(stack);
      assert Slashed([x]) == x + "/" + "" && d == front + (x + "/");
      assert x in stack && NoSlash(x);
      forall k | |front| - 1 < k <= |d| - 2 ensures d[k] != '/' { assert d[k] == x[k - |front|]
        && x[k - |front|] in x; }
      ScanBack(d, |d| - 2, |front| - 1);
      SlashedEnds(p);
      assert front != "" ==> d[|front| - 1] == front[|front| - 1];
      assert d[..|front|] == front;
    }
  }

  lemma {:induction false} ClimbInside(done: string, seg: string, rest: string)
    requires NoSlash(seg) && (AtStart(done) ==> seg == "" || !Parent(seg + rest))
    requires seg == "" ==> rest == "" || rest[0] == '/'
    requires rest != "" ==> rest[0] == '/'
    ensures Climb(done, seg + rest) == Climb(done + seg, rest)
    decreases seg
  {
    if seg == "" {
      assert seg + rest == rest && done + seg == done;
    } else {
      var s := seg + rest;
      assert s[0] == seg[0] && s[1..] == seg[1..] + rest && seg[0] in seg;
      assert (done + [s[0]])[|done|] != '/';
      ClimbInside(done + [seg[0]], seg[1..], rest);
      assert done + [seg[0]] + seg[1..] == done + seg;
    }
  }

  function Step(stack: seq<string>, seg: string): seq<string> {
    if seg == ".." then Pop(stack) else stack + [seg]
  }

  lemma {:induction false} NotParent(seg: string, rest: string)
    requires NoSlash(seg) && seg != ".." && (rest != "" ==> rest[0] == '/')
    ensures !Parent(seg + rest)
  {
    var s := seg + rest;
    if |seg| > 2 {
      assert s[2] == seg[2] && seg[2] in seg;
    } else if |seg| == 2 {
      assert seg == [s[0], s[1]];
    } else if rest != "" {
      assert s[|seg|] == '/';
    }
  }

  lemma {:induction false} ClimbSegment(stack: seq<string>, seg: string, rest: string)
    requires NoSlashes(stack) && NoSlash(seg)
    ensures Climb(Slashed(stack), seg + "/" + rest) == Climb(Slashed(Step(stack, seg)), rest)
  {
    var d := Slashed(stack);
    SlashedEnds(stack);
    var s := seg + "/" + rest;
    if seg == ".." {
      assert s[3..] == rest && Parent(s);
      UpSlashed(stack);
    } else {
      var slash := "/" + rest;
      assert s == seg + slash && slash[1..] == rest;
      NotParent(seg, slash);
      ClimbInside(d, seg, slash);
      assert Climb(d + seg, slash) == Climb(d + seg + "/", rest);
      assert [seg][1..] == [];
      SlashedConcat(stack, [seg]);
      assert Slashed([seg]) == seg + "/" + "" && d + (seg + "/" + "") == d + seg + "/";
    }
  }

  function Steps(stack: seq<string>, segs: seq<string>): seq<string>
    decreases |segs|
  {
    if segs == [] then stack else Steps(Step(stack, segs[0]), segs[1..])
  }

  lemma {:induction false} StepsNoSlashes(stack: seq<string>, segs: seq<string>)
    requires NoSlashes(stack) && NoSlashes(segs)
    ensures NoSlashes(Steps(stack, segs))
    decreases |segs|
  {
    if segs != [] {
      assert segs[0] in segs;
      StepsNoSlashes(Step(stack, segs[0]), segs[1..]);
    }
  }

  lemma {:induction false} ClimbSegments(stack: seq<string>, segs: seq<string>, last: string)
    requires NoSlashes(stack) && NoSlashes(segs) && NoSlash(last)
    ensures Climb(Slashed(stack), Slashed(segs) + last) == Slashed(Steps(stack, segs)) + last
    decreases |segs|
  {
    if segs == [] {
      assert Slashed(segs) + last == last + "";
      if last == ".." { assert last + "" == last; } else { NotParent(last, ""); }
      ClimbInside(Slashed(stack), last, "");
    } else {
      assert segs[0] in segs;
      var rest := Slashed(segs[1..]) + last;
      assert Slashed(segs) + last == segs[0] + "/" + rest;
      ClimbSegment(stack, segs[0], rest);
      ClimbSegments(Step(stack, segs[0]), segs[1..], last);
    }
  }

  lemma {:induction false} KeptNoSlashes(segs: seq<string>)
    requires NoSlashes(segs)
    ensures NoSlashes(Kept(segs))
  {
    if segs != [] {
      assert segs[0] in segs;
      KeptNoSlashes(segs[1..]);
    }
  }

  /** Dropping the dots first changes nothing for the stack. */
  lemma {:induction false} FoldSteps(stack: seq<string>, segs: seq<string>)
    requires segs != []
    ensures Fold(stack, segs) == PushLast(Steps(stack, Kept(segs[..|segs| - 1])), segs[|segs| - 1])
    decreases |segs|
  {
    var init := segs[..|segs| - 1];
    if |segs| > 1 {
      FoldSteps(Push(stack, segs[0]), segs[1..]);
      assert init[1..] == segs[1..][..|segs| - 2] && init[0] == segs[0];
      var kept := Kept(init[1..]);
      assert ([segs[0]] + kept)[1..] == kept;
    }
  }

  /** The four passes resolve the path. */
  lemma {:induction false} PassesResolve(s: string)
    ensures Passes(s) == Resolve(s)
  {
    var segs := Split(s);
    SplitNoSlashes(s);
    JoinSplit(s);
    var init, last := segs[..|segs| - 1], segs[|segs| - 1];
    assert last in segs && NoSlashes(init);
    var kept := Kept(init);
    KeptNoSlashes(init);
    SkipSegments(init, last);
    SlashedEnds(kept);
    TrimDotLast(Slashed(kept), last);
    var last1 := if last == "." then "" else last;
    ClimbSegments([], kept, last1);
    var stack := Steps([], kept);
    StepsNoSlashes([], kept);
    SlashedEnds(stack);
    TrimParentLast(Slashed(stack), last1);
    UpSlashed(stack);
    FoldSteps([], segs);
    JoinSnoc(stack, last1);
    JoinSnoc(Pop(stack), "");
    assert Slashed(Pop(stack)) + "" == Slashed(Pop(stack));
  }
}
