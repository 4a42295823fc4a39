/** What it means to resolve the "." and ".." segments of a path: on the list of its segments, with
    a stack, and nothing more. `PathNormalizer` has the in-place code that is proved to do this. */
module Paths {

  // ---------- segments ----------

  predicate NoSlash(seg: string) { '/' !in seg }

  predicate NoSlashes(segs: seq<string>) { forall seg :: seg in segs ==> NoSlash(seg) }

  /** The segments between the slashes; a leading slash gives a leading empty segment. */
  function Split(s: string): (segs: seq<string>)
    ensures |segs| > 0
  {
    if s == "" then [""]
    else
      var rest := Split(s[1..]);
      if s[0] == '/' then [""] + rest else [[s[0]] + rest[0]] + rest[1..]
  }

  /** The segments, each followed by a slash. */
  function Slashed(segs: seq<string>): string {
    if segs == [] then "" else segs[0] + "/" + Slashed(segs[1..])
  }

  function Join(segs: seq<string>): string
    requires segs != []
  {
    Slashed(segs[..|segs| - 1]) + segs[|segs| - 1]
  }

  function Pop(stack: seq<string>): seq<string> {
    if stack == [] then [] else stack[..|stack| - 1]
  }

  /** One segment that is followed by others. */
  function Push(stack: seq<string>, seg: string): seq<string> {
    if seg == "." then stack else if seg == ".." then Pop(stack) else stack + [seg]
  }

  /** The last segment: after "." and ".." an empty one remains. */
  function PushLast(stack: seq<string>, seg: string): seq<string> {
    if seg == "." then stack + [""] else if seg == ".." then Pop(stack) + [""] else stack + [seg]
  }

  function Fold(stack: seq<string>, segs: seq<string>): (r: seq<string>)
    requires segs != []
    ensures r != []
    decreases |segs|
  {
    if |segs| == 1 then PushLast(stack, segs[0]) else Fold(Push(stack, segs[0]), segs[1..])
  }

  /** The resolved path. A leading empty segment is a segment like any other, so ".." can pop it. */
  function Resolve(s: string): string { Join(Fold([], Split(s))) }

  lemma {:induction false} SplitNoSlashes(s: string)
    ensures NoSlashes(Split(s))
  {
    if s != "" {
      SplitNoSlashes(s[1..]);
      var rest := Split(s[1..]);
      assert rest[0] in rest;
      forall seg | seg in Split(s) ensures NoSlash(seg) {
        if s[0] != '/' && seg in rest[1..] { assert seg in rest; }
      }
    }
  }

  lemma {:induction false} JoinCons(seg: string, segs: seq<string>)
    requires segs != []
    ensures Join([seg] + segs) == seg + "/" + Join(segs)
  {
    var all := [seg] + segs;
    var init := segs[..|segs| - 1];
    assert all[..|all| - 1] == [seg] + init;
    assert ([seg] + init)[1..] == init;
    assert seg + "/" + Slashed(init) + segs[|segs| - 1] == seg + "/" + (Slashed(init) + segs[|segs| - 1]);
  }

  lemma {:induction false} JoinSnoc(stack: seq<string>, seg: string)
    ensures Join(stack + [seg]) == Slashed(stack) + seg
  {
    assert (stack + [seg])[..|stack|] == stack;
  }

  lemma {:induction false} SlashedConcat(a: seq<string>, b: seq<string>)
    ensures Slashed(a + b) == Slashed(a) + Slashed(b)
  {
    if a == [] {
      assert a + b == b;
    } else {
      assert (a + b)[1..] == a[1..] + b;
      SlashedConcat(a[1..], b);
    }
  }

  lemma {:induction false} JoinOne(seg: string)
    ensures Join([seg]) == seg
  {
    JoinSnoc([], seg);
    assert [] + [seg] == [seg] && "" + seg == seg;
  }

  lemma {:induction false} JoinEmptyFirst(segs: seq<string>)
    requires segs != []
    ensures Join([""] + segs) == "/" + Join(segs)
  {
    JoinCons("", segs);
    assert "" + "/" == "/";
  }

  /** Joining is the inverse of splitting. */
  lemma {:induction false} JoinSplit(s: string)
    ensures Join(Split(s)) == s
  {
    if s == "" {
      JoinOne("");
    } else {
      var rest := Split(s[1..]);
      JoinSplit(s[1..]);
      assert s == [s[0]] + s[1..];
      if s[0] == '/' { JoinEmptyFirst(rest); } else { JoinHead(s[0], rest); }
    }
  }

  lemma {:induction false} JoinHead(c: char, segs: seq<string>)
    requires segs != []
    ensures Join([[c] + segs[0]] + segs[1..]) == [c] + Join(segs)
  {
    var longer := [[c] + segs[0]] + segs[1..];
    if |segs| == 1 {
      assert longer == [[c] + segs[0]];
    } else {
      JoinCons([c] + segs[0], segs[1..]);
      JoinCons(segs[0], segs[1..]);
      assert [segs[0]] + segs[1..] == segs;
      assert ([c] + segs[0]) + "/" + Join(segs[1..]) == [c] + (segs[0] + "/" + Join(segs[1..]));
    }
  }

  lemma {:induction false} SplitPrepend(seg: string, s: string)
    requires NoSlash(seg)
    ensures Split(seg + s) == [seg + Split(s)[0]] + Split(s)[1..]
  {
    if seg == "" {
      assert seg + s == s && seg + Split(s)[0] == Split(s)[0];
    } else {
      assert (seg + s)[1..] == seg[1..] + s;
      SplitPrepend(seg[1..], s);
      var t := Split(s);
      var mid := [seg[1..] + t[0]] + t[1..];
      assert [[seg[0]] + mid[0]] + mid[1..] == [seg + t[0]] + t[1..] by {
        assert [seg[0]] + (seg[1..] + t[0]) == seg + t[0];
        assert mid[1..] == t[1..];
      }
    }
  }

  lemma {:induction false} SplitOne(seg: string)
    requires NoSlash(seg)
    ensures Split(seg) == [seg]
  {
    SplitPrepend(seg, "");
    assert seg + "" == seg;
  }

  /** A segment without slashes in front of a slash and more. */
  lemma {:induction false} SplitCons(seg: string, more: string)
    requires NoSlash(seg)
    ensures Split(seg + "/" + more) == [seg] + Split(more)
  {
    var tail := "/" + more;
    assert seg + "/" + more == seg + tail && tail[1..] == more;
    SplitPrepend(seg, tail);
    assert Split(tail) == [""] + Split(more);
    assert Split(tail)[1..] == Split(more) && seg + "" == seg;
  }

  lemma {:induction false} SplitJoin(segs: seq<string>)
    requires segs != [] && NoSlashes(segs)
    ensures Split(Join(segs)) == segs
    decreases |segs|
  {
    assert segs[0] in segs;
    if |segs| == 1 {
      assert [segs[0]] == segs;
      JoinOne(segs[0]);
      SplitOne(segs[0]);
    } else {
      var rest := segs[1..];
      SplitJoin(rest);
      assert [segs[0]] + rest == segs;
      JoinCons(segs[0], rest);
      SplitCons(segs[0], Join(rest));
    }
  }

  // ---------- what resolving achieves ----------

  predicate Plain(segs: seq<string>) {
    forall seg :: seg in segs ==> seg != "." && seg != ".." && NoSlash(seg)
  }

  lemma {:induction false} PushPlain(stack: seq<string>, seg: string)
    requires Plain(stack) && NoSlash(seg)
    ensures Plain(Push(stack, seg)) && Plain(PushLast(stack, seg))
  {
    forall s | s in Pop(stack) ensures s in stack {}
  }

  lemma {:induction false} FoldPlain(stack: seq<string>, segs: seq<string>)
    requires segs != [] && Plain(stack) && NoSlashes(segs)
    ensures Plain(Fold(stack, segs))
    decreases |segs|
  {
    assert segs[0] in segs;
    PushPlain(stack, segs[0]);
    if |segs| > 1 {
      forall seg | seg in segs[1..] ensures NoSlash(seg) { assert seg in segs; }
      FoldPlain(Push(stack, segs[0]), segs[1..]);
    }
  }

  /** No "." and no ".." segment is left. */
  lemma {:induction false} ResolveLeavesNoDots(s: string)
    ensures Split(Resolve(s)) == Fold([], Split(s))
    ensures "." !in Split(Resolve(s)) && ".." !in Split(Resolve(s))
  {
    SplitNoSlashes(s);
    FoldPlain([], Split(s));
    SplitJoin(Fold([], Split(s)));
  }

  lemma {:induction false} FoldOfPlain(stack: seq<string>, segs: seq<string>)
    requires segs != [] && Plain(segs)
    ensures Fold(stack, segs) == stack + segs
    decreases |segs|
  {
    assert segs[0] in segs;
    if |segs| == 1 {
      assert [segs[0]] == segs;
    } else {
      forall seg | seg in segs[1..] ensures seg != "." && seg != ".." && NoSlash(seg) { assert seg in segs; }
      FoldOfPlain(stack + [segs[0]], segs[1..]);
      assert (stack + [segs[0]]) + segs[1..] == stack + segs;
    }
  }

  /** Resolving twice is resolving once. */
  lemma {:induction false} ResolveTwice(s: string)
    ensures Resolve(Resolve(s)) == Resolve(s)
  {
    ResolveLeavesNoDots(s);
    SplitNoSlashes(s);
    FoldPlain([], Split(s));
    FoldOfPlain([], Split(Resolve(s)));
    assert [] + Split(Resolve(s)) == Split(Resolve(s));
  }

  /** Ordinary segments in front are kept. */
  lemma {:induction false} FoldPrefix(stack: seq<string>, pre: seq<string>, segs: seq<string>)
    requires segs != [] && Plain(pre)
    ensures Fold(stack, pre + segs) == Fold(stack + pre, segs)
    decreases |pre|
  {
    if pre == [] {
      assert pre + segs == segs && stack + pre == stack;
    } else {
      assert pre[0] in pre;
      forall seg | seg in pre[1..] ensures seg != "." && seg != ".." && NoSlash(seg) { assert seg in pre; }
      var all := pre + segs;
      assert all[0] == pre[0] && all[1..] == pre[1..] + segs;
      FoldPrefix(stack + [pre[0]], pre[1..], segs);
      assert (stack + [pre[0]]) + pre[1..] == stack + pre;
    }
  }

  lemma {:induction false} FoldPair(stack: seq<string>, dir: string, last: string)
    requires Plain([dir, last])
    ensures Fold(stack, [dir, "..", last]) == stack + [last]
    ensures Fold(stack, [".", last]) == stack + [last]
    ensures Fold(stack, [dir, ".."]) == stack + [""] && Fold(stack, ["."]) == stack + [""]
  {
    assert dir in [dir, last] && last in [dir, last];
    assert [dir, "..", last][1..] == ["..", last] && ["..", last][1..] == [last];
    assert [".", last][1..] == [last] && [dir, ".."][1..] == [".."];
    assert Pop(stack + [dir]) == stack;
    assert Fold(stack + [dir], ["..", last]) == Fold(stack, [last]);
  }

  /** Behind ordinary segments ".." takes back the segment before it and "." nothing; at the end
      they leave the slash. */
  lemma {:induction false} ParentCancels(pre: seq<string>, dir: string, last: string)
    requires Plain(pre) && Plain([dir, last])
    ensures Resolve(Join(pre + [dir, "..", last])) == Join(pre + [last])
    ensures Resolve(Join(pre + [".", last])) == Join(pre + [last])
    ensures Resolve(Join(pre + [dir, ".."])) == Slashed(pre) && Resolve(Join(pre + ["."])) == Slashed(pre)
  {
    assert dir in [dir, last] && last in [dir, last];
    FoldPair(pre, dir, last);
    ResolveBehind(pre, [dir, "..", last]);
    ResolveBehind(pre, [".", last]);
    ResolveBehind(pre, [dir, ".."]);
    ResolveBehind(pre, ["."]);
    JoinSnoc(pre, "");
    assert Slashed(pre) + "" == Slashed(pre);
  }

  lemma {:induction false} ResolveBehind(pre: seq<string>, segs: seq<string>)
    requires Plain(pre) && segs != [] && NoSlashes(segs)
    ensures Resolve(Join(pre + segs)) == Join(Fold(pre, segs))
  {
    assert NoSlashes(pre + segs);
    SplitJoin(pre + segs);
    FoldPrefix([], pre, segs);
    assert [] + pre == pre;
  }

  // ---------- climbing above the root ----------

  /** Does a ".." among the segments find the stack empty? */
  predicate Climbs(stack: seq<string>, segs: seq<string>)
    requires segs != []
    decreases |segs|
  {
    if segs[0] == ".." && stack == [] then true
    else if |segs| == 1 then false
    else Climbs(Push(stack, segs[0]), segs[1..])
  }

  /** An absolute path with a ".." that has no directory left to leave. */
  predicate ClimbsAboveRoot(s: string) {
    s != "" && s[0] == '/' && Climbs([], Split(s[1..]))
  }

  /** Step 6 of section 4 of RFC 1808 with the root fixed: the slash in front stays whatever the
      segments behind it are. */
  function ResolveRooted(s: string): string
    requires s != "" && s[0] == '/'
  {
    "/" + Resolve(s[1..])
  }

  /** With one more segment at the bottom of the stack the result has it too, unless a ".." pops it. */
  lemma {:induction false} FoldOnRoot(root: string, stack: seq<string>, segs: seq<string>)
    requires segs != []
    ensures Fold([root] + stack, segs) == if Climbs(stack, segs) then Fold(stack, segs) else [root] + Fold(stack, segs)
    decreases |segs|
  {
    var seg := segs[0];
    if seg == ".." && stack == [] {
      assert [root] + stack == [root];
      assert Pop([root]) == [];
    } else {
      assert seg == ".." ==> Pop([root] + stack) == [root] + Pop(stack);
      assert [root] + (stack + [seg]) == ([root] + stack) + [seg];
      if |segs| == 1 {
        assert [root] + (Pop(stack) + [""]) == ([root] + Pop(stack)) + [""];
        assert [root] + (stack + [""]) == ([root] + stack) + [""];
      } else {
        FoldOnRoot(root, Push(stack, seg), segs[1..]);
      }
    }
  }

  /** The slash in front is one more segment, an empty one, at the bottom. */
  lemma {:induction false} ResolveAbsolute(s: string)
    requires s != "" && s[0] == '/'
    ensures Resolve(s) == Join(Fold([""], Split(s[1..])))
  {
    var segs := Split(s[1..]);
    assert Split(s) == [""] + segs;
    assert ([""] + segs)[1..] == segs && [] + [""] == [""];
  }

  /** An absolute path is resolved as it should be exactly if no ".." climbs above the root;
      otherwise the slash in front gets lost, and the result is not absolute any more or names
      something else. */
  lemma {:induction false} ResolveKeepsRoot(s: string)
    requires s != "" && s[0] == '/'
    ensures Resolve(s) == ResolveRooted(s) <==> !ClimbsAboveRoot(s)
    ensures ClimbsAboveRoot(s) ==> "/" + Resolve(s) == ResolveRooted(s)
  {
    var segs := Split(s[1..]);
    ResolveAbsolute(s);
    assert [""] + [] == [""];
    FoldOnRoot("", [], segs);
    JoinEmptyFirst(Fold([], segs));
    assert |ResolveRooted(s)| == 1 + |Resolve(s[1..])|;
  }

  /** absolutify: a path that is absolute is copied as it is, with its dots; any other one is put
      behind the working directory and resolved. */
  function Absolutify(cwd: string, path: string): string {
    if path != "" && path[0] == '/' then path else Resolve(cwd + "/" + path)
  }

  /** The result is absolute and without dots exactly when one would hope so. */
  lemma {:induction false} AbsolutifyResolves(cwd: string, path: string)
    requires cwd != "" && cwd[0] == '/'
    ensures path != "" && path[0] == '/' ==> Absolutify(cwd, path) == path
    ensures !(path != "" && path[0] == '/') ==>
      && "." !in Split(Absolutify(cwd, path)) && ".." !in Split(Absolutify(cwd, path))
      && (Absolutify(cwd, path) == ResolveRooted(cwd + "/" + path) <==> !ClimbsAboveRoot(cwd + "/" + path))
  {
    var s := cwd + "/" + path;
    ResolveLeavesNoDots(s);
    ResolveKeepsRoot(s);
  }

  /** The slash does get lost on what a client can ask for: from a working directory below the
      root, one ".." too many makes the result relative. */
  lemma {:induction false} RootIsLost(dir: string, name: string)
    requires NoSlash(dir) && dir != "." && dir != ".." && NoSlash(name) && name != "." && name != ".."
    ensures Absolutify("/" + dir, "../../" + name) == name
    ensures ClimbsAboveRoot("/" + dir + "/" + ("../../" + name))
  {
    var s := "/" + dir + "/" + ("../../" + name);
    var below := dir + "/" + ("../../" + name);
    assert s == "/" + below && s[1..] == below;
    SplitFour(dir, name);
    FoldFour(dir, name);
    JoinOne(name);
    ResolveKeepsRoot(s);
    assert ("/" + Resolve(s))[1..] == Resolve(s) && ("/" + name)[1..] == name;
  }

  lemma {:induction false} SplitFour(dir: string, name: string)
    requires NoSlash(dir) && NoSlash(name)
    ensures Split(dir + "/" + ("../../" + name)) == [dir, "..", "..", name]
  {
    var up := ".." + "/" + name;
    assert "../../" + name == ".." + "/" + up;
    SplitOne(name);
    SplitCons("..", name);
    SplitCons("..", up);
    SplitCons(dir, ".." + "/" + up);
  }

  lemma {:induction false} FoldFour(dir: string, name: string)
    requires dir != "." && dir != ".." && name != "." && name != ".."
    ensures Fold([], [dir, "..", "..", name]) == [name] && Climbs([], [dir, "..", "..", name])
  {
    var segs := [dir, "..", "..", name];
    assert segs[1..] == ["..", "..", name] && segs[1..][1..] == ["..", name] && segs[1..][1..][1..] == [name];
    assert [] + [dir] == [dir] && Pop([dir]) == [] && [] + [name] == [name];
    assert Fold([], ["..", name]) == [name];
    assert Fold([dir], ["..", "..", name]) == [name];
    assert Climbs([], ["..", name]);
    assert Climbs([dir], ["..", "..", name]);
  }
}
