/**
 * The parts of Go's `strings` and `path` packages that the modelled code relies on,
 * restated over `seq<char>`.
 */
module GoStrings {

  /** `strings.HasPrefix`. */
  predicate HasPrefix(s: string, prefix: string)
  {
    |prefix| <= |s| && s[..|prefix|] == prefix
  }

  /** `sub` occurs in `s` starting at index `i`. */
  ghost predicate OccursAt(s: string, sub: string, i: int)
  {
    0 <= i && i + |sub| <= |s| && s[i..i + |sub|] == sub
  }

  /** `strings.Contains`, as a scan from the left. */
  function Contains(s: string, sub: string): (r: bool)
    ensures r <==> exists i :: OccursAt(s, sub, i)
    decreases |s|
  {
    if HasPrefix(s, sub) then
      assert OccursAt(s, sub, 0);
      true
    else if |s| == 0 then
      assert forall i :: !OccursAt(s, sub, i);
      false
    else
      var rest := Contains(s[1..], sub);
      assert !OccursAt(s, sub, 0) by { if |sub| <= |s| { assert s[0..|sub|] == s[..|sub|]; } }
      assert (exists i :: OccursAt(s, sub, i)) ==> exists j :: OccursAt(s[1..], sub, j) by {
        if exists i :: OccursAt(s, sub, i) {
          var i :| OccursAt(s, sub, i);
          assert s[1..][i - 1..i - 1 + |sub|] == s[i..i + |sub|];
          assert OccursAt(s[1..], sub, i - 1);
        }
      }
      assert (exists j :: OccursAt(s[1..], sub, j)) ==> exists i :: OccursAt(s, sub, i) by {
        if exists j :: OccursAt(s[1..], sub, j) {
          var j :| OccursAt(s[1..], sub, j);
          assert s[1..][j..j + |sub|] == s[j + 1..j + 1 + |sub|];
          assert OccursAt(s, sub, j + 1);
        }
      }
      rest
  }

  /** Go's `<` on strings: byte-wise lexicographic order. Code-point order on
      `char` agrees with the byte order of the UTF-8 encoding. */
  predicate Less(a: string, b: string)
    decreases |a|
  {
    if |a| == 0 then |b| > 0
    else if |b| == 0 then false
    else if a[0] != b[0] then a[0] < b[0]
    else Less(a[1..], b[1..])
  }

  /** Exactly one of `a < b`, `a == b`, `b < a` holds, so an if / else-if / else
      on `>` and `==` takes exactly one branch. */
  lemma {:induction false} LessTrichotomy(a: string, b: string)
    ensures (Less(a, b) && a != b && !Less(b, a))
         || (!Less(a, b) && a == b && !Less(b, a))
         || (!Less(a, b) && a != b && Less(b, a))
    decreases |a|
  {
    if |a| == 0 || |b| == 0 {
    } else if a[0] != b[0] {
    } else {
      LessTrichotomy(a[1..], b[1..]);
      assert a == [a[0]] + a[1..] && b == [b[0]] + b[1..];
    }
  }

  /** The order is lexicographic and not numeric: "9" sorts after "10". */
  lemma LessIsNotNumeric()
    ensures Less("10", "9") && !Less("9", "10")
  {
    assert "10"[0] == '1' && "9"[0] == '9';
  }

  /** ASCII lower-casing of one character. */
  function LowerChar(c: char): (r: char)
    ensures 'A' <= c <= 'Z' ==> r as int == c as int + 32
    ensures !('A' <= c <= 'Z') ==> r == c
  {
    if 'A' <= c <= 'Z' then (c as int + 32) as char else c
  }

  /** ASCII `strings.ToLower`. */
  function ToLower(s: string): (r: string)
    ensures |r| == |s|
    ensures forall i :: 0 <= i < |s| ==> r[i] == LowerChar(s[i])
  {
    seq(|s|, i requires 0 <= i < |s| => LowerChar(s[i]))
  }

  /** Index of the first occurrence of `c` in `s`, or `|s|` when there is none. */
  function IndexOf(s: string, c: char): (k: nat)
    ensures k <= |s|
    ensures forall i :: 0 <= i < k ==> s[i] != c
    ensures k < |s| ==> s[k] == c
  {
    if |s| == 0 then 0
    else if s[0] == c then 0
    else 1 + IndexOf(s[1..], c)
  }

  /** `IndexOf` is the one position before which `c` does not occur and at
      which it does (or the length, when it does not occur at all). */
  lemma IndexOfIs(s: string, c: char, k: nat)
    requires k <= |s| && (forall i :: 0 <= i < k ==> s[i] != c) && (k < |s| ==> s[k] == c)
    ensures IndexOf(s, c) == k
  {
  }

  /** Index of the last occurrence of `c` in `s`, or -1 when there is none. */
  function LastIndexOf(s: string, c: char): (k: int)
    ensures -1 <= k < |s|
    ensures forall i :: k < i < |s| ==> s[i] != c
    ensures k >= 0 ==> s[k] == c
  {
    if |s| == 0 then -1
    else if s[|s| - 1] == c then |s| - 1
    else LastIndexOf(s[..|s| - 1], c)
  }

  /** A text is the part before a position, the character there and the
      part after it. */
  lemma SplitAround(s: string, j: nat)
    requires j < |s|
    ensures s == s[..j] + [s[j]] + s[j + 1..]
  {
  }

  /** `s` does not contain `c`. */
  predicate Lacks(s: string, c: char)
  {
    forall i :: 0 <= i < |s| ==> s[i] != c
  }

  /** Decimal rendering of a natural number, as `%d` prints it. */
  function NatToString(n: nat): (r: string)
    ensures |r| > 0
    ensures forall i :: 0 <= i < |r| ==> '0' <= r[i] <= '9'
  {
    if n < 10 then [(n + '0' as int) as char]
    else NatToString(n / 10) + [(n % 10 + '0' as int) as char]
  }

  /** `path.Base`: the last element of a slash-separated path, after trailing
      slashes are dropped; "." for the empty path, "/" for a path of slashes. */
  function PathBase(p: string): (r: string)
    ensures |r| > 0
  {
    if p == "" then "."
    else
      var q := TrimTrailingSlashes(p);
      if q == "" then "/" else q[LastIndexOf(q, '/') + 1..]
  }

  function TrimTrailingSlashes(p: string): (q: string)
    ensures |q| <= |p| && q == p[..|q|]
    ensures q == "" || q[|q| - 1] != '/'
  {
    if p == "" || p[|p| - 1] != '/' then p else TrimTrailingSlashes(p[..|p| - 1])
  }

  /** `path.Join(dir, name)` for a non-empty, already clean directory and a
      single name: the two are separated by one slash. */
  function PathJoin(dir: string, name: string): (r: string)
  {
    if dir == "" then name else dir + "/" + name
  }

  /** The base name of a joined path is the name that was joined. */
  lemma BaseOfJoin(dir: string, name: string)
    requires name != "" && Lacks(name, '/')
    ensures PathBase(PathJoin(dir, name)) == name
  {
    var p := PathJoin(dir, name);
    assert p[|p| - 1] == name[|name| - 1];
    assert TrimTrailingSlashes(p) == p;
    if dir != "" {
      assert p[|dir|] == '/';
      assert forall i :: |dir| < i < |p| ==> p[i] == name[i - |dir| - 1];
      assert p[|dir| + 1..] == name;
    } else {
      assert p == name;
    }
  }

  /** The elements of `p` between its slashes, empty ones included. */
  function SplitSlash(p: string): (r: seq<string>)
    ensures |r| >= 1
    ensures forall k :: 0 <= k < |r| ==> Lacks(r[k], '/')
    decreases |p|
  {
    var k := IndexOf(p, '/');
    if k == |p| then [p] else [p[..k]] + SplitSlash(p[k + 1..])
  }

  /** Elements joined with single slashes. */
  function JoinSlash(elems: seq<string>): string
  {
    if |elems| == 0 then ""
    else if |elems| == 1 then elems[0]
    else elems[0] + "/" + JoinSlash(elems[1..])
  }

  /** An element `path.Clean` keeps as it is. */
  predicate PlainElement(e: string)
  {
    e != "" && e != "." && e != ".." && Lacks(e, '/')
  }

  /** The element pass of `path.Clean`: empty and `.` elements vanish; `..`
      removes the element kept before it, and with nothing to remove it is
      dropped at the root and kept otherwise. */
  function Resolve(kept: seq<string>, elems: seq<string>, rooted: bool): seq<string>
    decreases |elems|
  {
    if elems == [] then kept
    else
      var e := elems[0];
      if e == "" || e == "." then Resolve(kept, elems[1..], rooted)
      else if e == ".." then
        if |kept| > 0 && kept[|kept| - 1] != ".." then Resolve(kept[..|kept| - 1], elems[1..], rooted)
        else if rooted then Resolve(kept, elems[1..], rooted)
        else Resolve(kept + [".."], elems[1..], rooted)
      else Resolve(kept + [e], elems[1..], rooted)
  }

  /** Every element is plain. */
  predicate AllPlain(elems: seq<string>)
  {
    elems == [] || (PlainElement(elems[0]) && AllPlain(elems[1..]))
  }

  /** `path.Clean`: the shortest path naming the same file by lexical
      processing; "." when nothing is left of a relative path. */
  function Clean(p: string): (r: string)
    ensures r != ""
  {
    if p == "" then "."
    else
      var rooted := p[0] == '/';
      var body := JoinSlash(Resolve([], SplitSlash(p), rooted));
      if rooted then "/" + body else if body == "" then "." else body
  }

  /** `filepath.Dir` on a slash-separated path: everything up to the last
      slash, cleaned; "." when there is no slash. */
  function PathDir(p: string): (r: string)
    ensures r != ""
  {
    Clean(p[..LastIndexOf(p, '/') + 1])
  }

  /** Splitting after a first element that holds no slash. */
  lemma SplitHead(e: string, t: string)
    requires Lacks(e, '/')
    ensures SplitSlash(e + "/" + t) == [e] + SplitSlash(t)
  {
    var p := e + "/" + t;
    IndexOfIs(p, '/', |e|);
    assert p[..|e|] == e && p[|e| + 1..] == t;
  }

  /** Splitting a joined list of plain elements gives them back. */
  lemma {:induction false} SplitJoin(elems: seq<string>, t: string)
    requires |elems| >= 1 && AllPlain(elems)
    ensures SplitSlash(JoinSlash(elems) + "/" + t) == elems + SplitSlash(t)
    decreases |elems|
  {
    if |elems| == 1 {
      assert JoinSlash(elems) == elems[0];
      SplitHead(elems[0], t);
    } else {
      SplitJoin(elems[1..], t);
      SplitJoinStep(elems, t);
    }
  }

  /** The inductive step of `SplitJoin`: one more element in front. */
  lemma SplitJoinStep(elems: seq<string>, t: string)
    requires |elems| > 1 && PlainElement(elems[0])
    requires SplitSlash(JoinSlash(elems[1..]) + "/" + t) == elems[1..] + SplitSlash(t)
    ensures SplitSlash(JoinSlash(elems) + "/" + t) == elems + SplitSlash(t)
  {
    var e, rest := elems[0], JoinSlash(elems[1..]);
    assert JoinSlash(elems) + "/" + t == e + "/" + (rest + "/" + t);
    SplitHead(e, rest + "/" + t);
    assert elems == [e] + elems[1..];
  }

  /** Plain elements are kept, one after the other. */
  lemma {:induction false} ResolvePlain(kept: seq<string>, elems: seq<string>, tail: seq<string>, rooted: bool)
    requires AllPlain(elems)
    ensures Resolve(kept, elems + tail, rooted) == Resolve(kept + elems, tail, rooted)
    decreases |elems|
  {
    if elems != [] {
      assert (elems + tail)[0] == elems[0] && PlainElement(elems[0]);
      assert (elems + tail)[1..] == elems[1..] + tail;
      assert Resolve(kept, elems + tail, rooted) == Resolve(kept + [elems[0]], elems[1..] + tail, rooted);
      ResolvePlain(kept + [elems[0]], elems[1..], tail, rooted);
      assert kept + [elems[0]] + elems[1..] == kept + elems;
    } else {
      assert elems + tail == tail && kept + elems == kept;
    }
  }

  /** For a file in a directory given as a clean absolute path, `PathDir` is
      that directory. */
  lemma PathDirOfFile(elems: seq<string>, name: string)
    requires |elems| >= 1 && AllPlain(elems)
    requires Lacks(name, '/')
    ensures PathDir("/" + JoinSlash(elems) + "/" + name) == "/" + JoinSlash(elems)
  {
    var dir := "/" + JoinSlash(elems);
    LastSlash(dir, name);
    CleanRooted(elems);
  }

  /** The last slash of `dir/name` is the one before `name`. */
  lemma LastSlash(dir: string, name: string)
    requires Lacks(name, '/')
    ensures (dir + "/" + name)[..LastIndexOf(dir + "/" + name, '/') + 1] == dir + "/"
  {
    var p := dir + "/" + name;
    assert p[|dir|] == '/';
    assert forall i :: |dir| < i < |p| ==> p[i] == name[i - |dir| - 1];
    assert LastIndexOf(p, '/') == |dir|;
  }

  /** Cleaning a clean absolute directory with a trailing slash drops the
      slash. */
  lemma CleanRooted(elems: seq<string>)
    requires |elems| >= 1 && AllPlain(elems)
    ensures Clean("/" + JoinSlash(elems) + "/") == "/" + JoinSlash(elems)
  {
    assert "/" + JoinSlash(elems) + "/" == "/" + (JoinSlash(elems) + "/");
    SplitRooted(elems);
    ResolveRooted(elems);
  }

  lemma SplitRooted(elems: seq<string>)
    requires |elems| >= 1 && AllPlain(elems)
    ensures SplitSlash("/" + (JoinSlash(elems) + "/")) == [""] + (elems + [""])
  {
    SplitLeadingSlash(JoinSlash(elems) + "/");
    SplitTrailingSlash(elems);
  }

  lemma SplitLeadingSlash(x: string)
    ensures SplitSlash("/" + x) == [""] + SplitSlash(x)
  {
    IndexOfIs("/" + x, '/', 0);
    assert ("/" + x)[1..] == x;
  }

  lemma SplitTrailingSlash(elems: seq<string>)
    requires |elems| >= 1 && AllPlain(elems)
    ensures SplitSlash(JoinSlash(elems) + "/") == elems + [""]
  {
    SplitJoin(elems, "");
    assert JoinSlash(elems) + "/" + "" == JoinSlash(elems) + "/";
    assert SplitSlash("") == [""];
  }

  lemma ResolveRooted(elems: seq<string>)
    requires AllPlain(elems)
    ensures Resolve([], [""] + (elems + [""]), true) == elems
  {
    assert ([""] + (elems + [""]))[1..] == elems + [""];
    ResolvePlain([], elems, [""], true);
    assert [] + elems == elems;
  }
}
