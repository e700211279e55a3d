/**
 * Container image references, as `ComputeImage` and `ComputePTF` in the
 * `shared/utils` package compute them. The reference grammar is
 *
 *     ^((?:[^:/]+(?::[0-9]+)?/)?[^:]+)(?::([^:]+))?$
 *
 * an optional registry host (with an optional numeric port) ending at the
 * first slash, a repository path without colons, and an optional tag without
 * colons. When the registry group can match, it does (the regular expression
 * engine tries the optional group first).
 */
module Images {
  import opened Wrappers
  import opened GoStrings

  /** A parsed reference `[registry/]path[:tag]`; `registry` and `tag` are ""
      when absent. `registry` holds the host and port, without the slash. */
  datatype ImageRef = ImageRef(registry: string, path: string, tag: string)

  datatype ImageError = InvalidImageName(name: string)

  predicate IsDigits(s: string)
  {
    |s| > 0 && forall i :: 0 <= i < |s| ==> '0' <= s[i] <= '9'
  }

  /** `[^:/]+(?::[0-9]+)?`: a host, optionally followed by a numeric port. */
  predicate IsRegistryHost(h: string)
  {
    var k := IndexOf(h, ':');
    k > 0 && Lacks(h[..k], '/') && (k == |h| || IsDigits(h[k + 1..]))
  }

  /** The pieces of a reference satisfy the grammar. */
  predicate WellFormed(r: ImageRef)
  {
    && (r.registry == "" || IsRegistryHost(r.registry))
    && r.path != "" && Lacks(r.path, ':')
    && Lacks(r.tag, ':')
  }

  /** The text of a reference. */
  function Render(r: ImageRef): string
  {
    (if r.registry == "" then "" else r.registry + "/")
    + r.path
    + (if r.tag == "" then "" else ":" + r.tag)
  }

  /** `[^:]+(?::([^:]+))?`: a path and a tag ("" when there is none). */
  function SplitTag(s: string): Option<(string, string)>
  {
    var k := IndexOf(s, ':');
    if k == 0 then None
    else if k == |s| then Some((s, ""))
    else if Lacks(s[k + 1..], ':') && |s[k + 1..]| > 0 then Some((s[..k], s[k + 1..]))
    else None
  }

  /** The path and the tag `SplitTag` finds satisfy the grammar and make up
      the whole text. */
  lemma SplitTagSound(s: string)
    requires SplitTag(s).Some?
    ensures var pt := SplitTag(s).value;
            && pt.0 != "" && Lacks(pt.0, ':') && Lacks(pt.1, ':')
            && s == pt.0 + (if pt.1 == "" then "" else ":" + pt.1)
  {
    var k := IndexOf(s, ':');
    if k < |s| {
      assert s == s[..k] + ":" + s[k + 1..];
    }
  }

  /** Matches a reference against the grammar. */
  function Parse(name: string): Option<ImageRef>
  {
    var j := IndexOf(name, '/');
    if j < |name| && IsRegistryHost(name[..j]) && SplitTag(name[j + 1..]).Some? then
      var pt := SplitTag(name[j + 1..]).value;
      Some(ImageRef(name[..j], pt.0, pt.1))
    else if SplitTag(name).Some? then
      var pt := SplitTag(name).value;
      Some(ImageRef("", pt.0, pt.1))
    else
      None
  }

  /** A parsed reference is well formed and renders back to the very text it
      was parsed from. */
  lemma ParseSound(name: string)
    requires Parse(name).Some?
    ensures WellFormed(Parse(name).value) && Render(Parse(name).value) == name
  {
    var j := IndexOf(name, '/');
    if j < |name| && IsRegistryHost(name[..j]) && SplitTag(name[j + 1..]).Some? {
      RegistryParseSound(name, j);
    } else {
      var pt := SplitTag(name).value;
      assert Parse(name) == Some(ImageRef("", pt.0, pt.1));
      PlainParseSound(name, pt);
    }
  }

  /** The case of `ParseSound` without a registry host. */
  lemma PlainParseSound(name: string, pt: (string, string))
    requires SplitTag(name) == Some(pt)
    ensures WellFormed(ImageRef("", pt.0, pt.1)) && Render(ImageRef("", pt.0, pt.1)) == name
  {
    SplitTagSound(name);
  }

  /** The case of `ParseSound` where the text before the first slash is a
      registry host. */
  lemma RegistryParseSound(name: string, j: nat)
    requires j == IndexOf(name, '/') && j < |name|
    requires IsRegistryHost(name[..j]) && SplitTag(name[j + 1..]).Some?
    ensures Parse(name).Some? && WellFormed(Parse(name).value) && Render(Parse(name).value) == name
  {
    var host, rest := name[..j], name[j + 1..];
    var pt := SplitTag(rest).value;
    var r := ImageRef(host, pt.0, pt.1);
    assert Parse(name) == Some(r);
    SplitTagSound(rest);
    assert |host| > 0 && WellFormed(r);
    assert Render(r) == host + "/" + rest;
    SplitAround(name, j);
  }

  /** A registry host has no slash, and its only colon is the port separator. */
  lemma HostColons(h: string)
    requires IsRegistryHost(h)
    ensures Lacks(h, '/')
    ensures forall i :: 0 <= i < |h| && h[i] == ':' ==> i == IndexOf(h, ':')
  {
    forall i | 0 <= i < |h| ensures h[i] != '/' && (h[i] == ':' ==> i == IndexOf(h, ':')) {
      HostChar(h, i);
    }
  }

  /** One character of a registry host. */
  lemma HostChar(h: string, i: nat)
    requires IsRegistryHost(h) && i < |h|
    ensures h[i] != '/' && (h[i] == ':' ==> i == IndexOf(h, ':'))
  {
    var k := IndexOf(h, ':');
    assert k > 0 && Lacks(h[..k], '/') && (k == |h| || IsDigits(h[k + 1..]));
    if i < k {
      assert h[..k][i] == h[i];
    } else if i > k {
      var port := h[k + 1..];
      assert IsDigits(port) && port[i - k - 1] == h[i];
    }
  }

  /** A well-formed reference with a registry parses back to itself. */
  lemma RegistryParse(r: ImageRef)
    requires WellFormed(r) && r.registry != ""
    ensures Parse(Render(r)) == Some(r)
  {
    var h := r.registry;
    var rest := r.path + (if r.tag == "" then "" else ":" + r.tag);
    var name := Render(r);
    assert name == h + "/" + rest;
    SplitTagComplete(r.path, r.tag);
    HostColons(h);
    forall i | 0 <= i < |h| ensures name[i] != '/' {
      assert name[i] == h[i];
    }
    IndexOfIs(name, '/', |h|);
    assert name[..|h|] == h && name[|h| + 1..] == rest;
  }

  /** Every text the grammar describes is accepted by `Parse`. */
  lemma ParseComplete(r: ImageRef)
    requires WellFormed(r)
    ensures Parse(Render(r)).Some?
  {
    if r.registry == "" {
      var name := Render(r);
      assert name == r.path + (if r.tag == "" then "" else ":" + r.tag);
      SplitTagComplete(r.path, r.tag);
      assert SplitTag(name).Some?;
    } else {
      RegistryParse(r);
    }
  }

  lemma SplitTagComplete(path: string, tag: string)
    requires path != "" && Lacks(path, ':') && Lacks(tag, ':')
    ensures SplitTag(path + (if tag == "" then "" else ":" + tag)) == Some((path, tag))
  {
    var s := path + (if tag == "" then "" else ":" + tag);
    if tag != "" {
      assert s[|path|] == ':';
      assert forall i :: 0 <= i < |path| ==> s[i] == path[i];
      assert IndexOf(s, ':') == |path|;
      assert s[..|path|] == path && s[|path| + 1..] == tag;
    } else {
      assert s == path;
    }
  }

  /** `ComputeImage(name, tag, appendToName...)`: the reference with its
      registry host lower-cased, the suffix appended to the path, and the tag of
      the reference when it has one, the tag argument otherwise. */
  function ComputeImage(name: string, tag: string, suffix: string): Result<string, ImageError>
  {
    match Parse(name)
    case None => Failure(InvalidImageName(name))
    case Some(ref) => Success(Render(Computed(ref, tag, suffix)))
  }

  /** `ComputeImage` fails exactly on the names that no well-formed
      reference renders to, whatever the tag and the suffix. */
  lemma ComputeImageFails(name: string, tag: string, suffix: string)
    ensures ComputeImage(name, tag, suffix).Failure? <==> !exists r :: WellFormed(r) && Render(r) == name
  {
    if Parse(name).Some? {
      ParseSound(name);
      assert WellFormed(Parse(name).value) && Render(Parse(name).value) == name;
    } else {
      forall r | WellFormed(r) ensures Render(r) != name {
        ParseComplete(r);
      }
    }
  }

  /** The reference `ComputeImage` renders for a parsed reference. */
  function Computed(ref: ImageRef, tag: string, suffix: string): ImageRef
  {
    ImageRef(ToLower(ref.registry), ref.path + suffix, EffectiveTag(ref, tag))
  }

  /** The tag a computed image ends up with. */
  function EffectiveTag(ref: ImageRef, tag: string): string
  {
    if ref.tag != "" then ref.tag else tag
  }

  predicate HasSuffix(s: string, suffix: string)
  {
    |suffix| <= |s| && s[|s| - |suffix|..] == suffix
  }

  /** An existing tag wins: the tag argument is then ignored whatever it is,
      upper or lower case. Without one, `:<tag>` is appended. */
  lemma ComputeImageTag(name: string, ref: ImageRef, tag: string, suffix: string)
    requires Parse(name) == Some(ref)
    ensures ComputeImage(name, tag, suffix).Success?
    ensures ref.tag != "" ==> HasSuffix(ComputeImage(name, tag, suffix).value, ":" + ref.tag)
    ensures ref.tag == "" && tag != "" ==> HasSuffix(ComputeImage(name, tag, suffix).value, ":" + tag)
    ensures ref.tag != "" ==> forall other :: ComputeImage(name, other, suffix) == ComputeImage(name, tag, suffix)
  {
    var t := EffectiveTag(ref, tag);
    var x := ComputeImage(name, tag, suffix).value;
    if t != "" {
      var head := (if ref.registry == "" then "" else ToLower(ref.registry) + "/") + (ref.path + suffix);
      assert x == head + (":" + t);
      assert x[|x| - |":" + t|..] == ":" + t;
    }
  }

  /** The suffix goes onto the last path component, before the `:tag`: the
      result with a suffix is the result without one, with the suffix spliced
      in just before the final `:tag`. */
  lemma ComputeImageSuffix(name: string, ref: ImageRef, tag: string, suffix: string)
    requires Parse(name) == Some(ref) && EffectiveTag(ref, tag) != ""
    ensures var plain := ComputeImage(name, tag, "").value;
            var n := |plain| - |EffectiveTag(ref, tag)| - 1;
            0 <= n <= |plain| &&
            ComputeImage(name, tag, suffix) == Success(plain[..n] + suffix + plain[n..])
  {
    var t := EffectiveTag(ref, tag);
    RenderComputed(ref, tag, "");
    RenderComputed(ref, tag, suffix);
    Splice(Head(ref), suffix, ":" + t);
  }

  /** The registry-and-path part of a computed reference, before any suffix. */
  function Head(ref: ImageRef): string
  {
    (if ref.registry == "" then "" else ToLower(ref.registry) + "/") + ref.path
  }

  lemma RenderComputed(ref: ImageRef, tag: string, suffix: string)
    requires EffectiveTag(ref, tag) != ""
    ensures Render(Computed(ref, tag, suffix)) == Head(ref) + suffix + (":" + EffectiveTag(ref, tag))
  {
  }

  lemma Splice(head: string, middle: string, tail: string)
    ensures var plain := head + "" + tail;
            |plain| - |tail| == |head| &&
            head + middle + tail == plain[..|head|] + middle + plain[|head|..]
  {
    var plain := head + "" + tail;
    assert plain[..|head|] == head && plain[|head|..] == tail;
  }

  /** Lower-casing keeps a registry host a registry host. */
  lemma LowerRegistryHost(h: string)
    requires IsRegistryHost(h)
    ensures IsRegistryHost(ToLower(h))
  {
    var l := ToLower(h);
    var k := IndexOf(h, ':');
    IndexOfIs(l, ':', k);
    forall i | 0 <= i < k ensures l[..k][i] != '/' {
      assert h[..k][i] == h[i];
    }
    if k < |h| {
      var port := l[k + 1..];
      forall j | 0 <= j < |port| ensures '0' <= port[j] <= '9' {
        assert h[k + 1..][j] == h[k + 1 + j];
      }
    }
  }

  /** Reading a computed reference back: its registry host is the original
      host in lower case, its path is the original path (case preserved) with
      the suffix appended, and its tag is the effective tag. */
  lemma ComputeImageParsesBack(name: string, ref: ImageRef, tag: string, suffix: string)
    requires Parse(name) == Some(ref) && ref.registry != ""
    requires Lacks(suffix, ':') && Lacks(tag, ':')
    ensures Parse(ComputeImage(name, tag, suffix).value)
              == Some(ImageRef(ToLower(ref.registry), ref.path + suffix, EffectiveTag(ref, tag)))
  {
    ParseSound(name);
    var out := Computed(ref, tag, suffix);
    LowerRegistryHost(ref.registry);
    assert forall i :: |ref.path| <= i < |out.path| ==> out.path[i] == suffix[i - |ref.path|];
    assert WellFormed(out);
    RegistryParse(out);
  }

  /** Where the colons of a well-formed reference can be: the port separator
      inside the registry host, and the tag separator. */
  lemma ColonPositions(r: ImageRef, i: int)
    requires WellFormed(r) && 0 <= i < |Render(r)| && Render(r)[i] == ':'
    ensures (r.registry != "" && i == IndexOf(r.registry, ':'))
         || i == (if r.registry == "" then 0 else |r.registry| + 1) + |r.path|
  {
    var name := Render(r);
    var off := if r.registry == "" then 0 else |r.registry| + 1;
    if r.registry != "" {
      HostColons(r.registry);
      assert forall j :: 0 <= j < |r.registry| ==> name[j] == r.registry[j];
      assert name[|r.registry|] == '/';
    }
    assert forall j :: off <= j < off + |r.path| ==> name[j] == r.path[j - off];
    assert forall j :: off + |r.path| < j < |name| ==> name[j] == r.tag[j - off - |r.path| - 1];
  }

  /** A reference with three colons, such as one with two tags, does not
      match the grammar. */
  lemma ThreeColonsRejected(name: string, a: int, b: int, c: int)
    requires 0 <= a < b < c < |name| && name[a] == ':' && name[b] == ':' && name[c] == ':'
    ensures Parse(name).None?
  {
    if Parse(name).Some? {
      ParseSound(name);
      var r := Parse(name).value;
      ColonPositions(r, a);
      ColonPositions(r, b);
      ColonPositions(r, c);
    }
  }

  /** The error case of the test table: `registry:path/to/image:tag:tag`. */
  lemma DoubleTagRejected()
    ensures ComputeImage("registry:path/to/image:tag:tag", "bar", "").Failure?
  {
    ThreeColonsRejected("registry:path/to/image:tag:tag", 8, 22, 26);
  }

  /** `ComputePTF(user, ptfId, fullImage, suffix)`: the image of a program
      temporary fix lives under `a/<user>/<ptfId>/` on the same registry and
      carries the tag `<tag>-<suffix>-<ptfId>`. A reference without a registry
      or without a tag is refused. */
  function ComputePTF(user: string, ptf: string, fullImage: string, suffix: string): (r: Result<string, ImageError>)
    ensures r.Success? <==> Parse(fullImage).Some? && Parse(fullImage).value.registry != "" && Parse(fullImage).value.tag != ""
  {
    match Parse(fullImage)
    case None => Failure(InvalidImageName(fullImage))
    case Some(ref) =>
      if ref.registry == "" || ref.tag == "" then Failure(InvalidImageName(fullImage))
      else Success(Render(PtfRef(user, ptf, ref, suffix)))
  }

  function PtfRef(user: string, ptf: string, ref: ImageRef, suffix: string): ImageRef
  {
    ImageRef(ref.registry, "a/" + user + "/" + ptf + "/" + ref.path, ref.tag + "-" + suffix + "-" + ptf)
  }

  /** Reading a PTF image back yields the same registry, unchanged, the
      `a/<user>/<ptf>/` prefixed path and the `<tag>-<suffix>-<ptf>` tag. */
  lemma {:induction false} ComputePTFParsesBack(user: string, ptf: string, fullImage: string, suffix: string)
    requires ComputePTF(user, ptf, fullImage, suffix).Success?
    requires Lacks(user, ':') && Lacks(ptf, ':') && Lacks(suffix, ':')
    ensures var ref := Parse(fullImage).value;
            Parse(ComputePTF(user, ptf, fullImage, suffix).value)
              == Some(ImageRef(ref.registry, "a/" + user + "/" + ptf + "/" + ref.path, ref.tag + "-" + suffix + "-" + ptf))
  {
    var ref := Parse(fullImage).value;
    var out := PtfRef(user, ptf, ref, suffix);
    assert Lacks(out.path, ':') by {
      var pre := "a/" + user + "/" + ptf + "/";
      assert Lacks(pre, ':') by {
        forall i | 0 <= i < |pre| ensures pre[i] != ':' {
          if 2 <= i < 2 + |user| { assert pre[i] == user[i - 2]; }
          else if 3 + |user| <= i < 3 + |user| + |ptf| { assert pre[i] == ptf[i - 3 - |user|]; }
        }
      }
      forall i | 0 <= i < |out.path| ensures out.path[i] != ':' {
        if i < |pre| { assert out.path[i] == pre[i]; } else { assert out.path[i] == ref.path[i - |pre|]; }
      }
    }
    assert Lacks(out.tag, ':') by {
      forall i | 0 <= i < |out.tag| ensures out.tag[i] != ':' {
        var a := |ref.tag|;
        if i < a { assert out.tag[i] == ref.tag[i]; }
        else if a + 1 <= i < a + 1 + |suffix| { assert out.tag[i] == suffix[i - a - 1]; }
        else if a + 2 + |suffix| <= i { assert out.tag[i] == ptf[i - a - 2 - |suffix|]; }
      }
    }
    RegistryParse(out);
  }
}
