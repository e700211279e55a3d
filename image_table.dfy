/**
 * The rows of the `ComputeImage` and `ComputePTF` test tables, each proved
 * from the general lemmas of `Images`. Every fact about a literal string is
 * a lemma of its own, so that each proof sees only the literals it needs.
 */
module ImageTable {
  import opened Wrappers
  import opened GoStrings
  import opened Images

  /** A host name followed by a numeric port is a registry host. */
  lemma HostWithPort(name: string, port: string)
    requires name != "" && Lacks(name, ':') && Lacks(name, '/') && IsDigits(port)
    ensures IsRegistryHost(name + ":" + port)
  {
    var h := name + ":" + port;
    IndexOfIs(h, ':', |name|);
    assert h[..|name|] == name && h[|name| + 1..] == port;
  }

  /** A host name without a port is a registry host. */
  lemma HostWithoutPort(name: string)
    requires name != "" && Lacks(name, ':') && Lacks(name, '/')
    ensures IsRegistryHost(name)
  {
    IndexOfIs(name, ':', |name|);
    assert name[..|name|] == name;
  }

  /** One row: a name with a registry host, the tag argument and the suffix
      give the expected image. */
  lemma Row(host: string, path: string, tag: string, given: string, suffix: string,
            name: string, lower: string, outPath: string, out: string)
    requires WellFormed(ImageRef(host, path, tag)) && host != ""
    requires Render(ImageRef(host, path, tag)) == name
    requires ToLower(host) == lower && path + suffix == outPath
    requires Render(ImageRef(lower, outPath, if tag != "" then tag else given)) == out
    ensures ComputeImage(name, given, suffix) == Success(out)
  {
    RegistryParse(ImageRef(host, path, tag));
  }

  /** The text of a reference with a registry and a tag. */
  lemma RenderTagged(host: string, path: string, tag: string)
    requires host != "" && tag != ""
    ensures Render(ImageRef(host, path, tag)) == host + "/" + path + (":" + tag)
  {
  }

  // The literal pieces of the table.

  lemma PortHost() ensures IsRegistryHost("registry:5000")
  {
    HostWithPort("registry", "5000");
    assert "registry" + ":" + "5000" == "registry:5000";
  }

  lemma UpperPortHost() ensures IsRegistryHost("REGISTRY:5000")
  {
    HostWithPort("REGISTRY", "5000");
    assert "REGISTRY" + ":" + "5000" == "REGISTRY:5000";
  }

  lemma PlainHost() ensures IsRegistryHost("registry")
  {
    HostWithoutPort("registry");
  }

  lemma LowerHosts()
    ensures ToLower("registry:5000") == "registry:5000"
    ensures ToLower("REGISTRY:5000") == "registry:5000"
    ensures ToLower("registry") == "registry"
  {
  }

  lemma TablePath() ensures Lacks("path/to/image", ':') && "path/to/image" + "" == "path/to/image"
  {
  }

  lemma SuffixedPath()
    ensures "path/to/image" + "-migration-14-16" == "path/to/image-migration-14-16"
  {
  }

  lemma TableTag() ensures Lacks("foo", ':') && Lacks("", ':')
  {
  }

  lemma RenderPortFoo()
    ensures Render(ImageRef("registry:5000", "path/to/image", "foo")) == "registry:5000/path/to/image:foo"
  {
  }

  lemma RenderUpperPortFoo()
    ensures Render(ImageRef("REGISTRY:5000", "path/to/image", "foo")) == "REGISTRY:5000/path/to/image:foo"
  {
  }

  lemma RenderPortUntagged()
    ensures Render(ImageRef("registry:5000", "path/to/image", "")) == "registry:5000/path/to/image"
  {
  }

  lemma RenderPortBar()
    ensures Render(ImageRef("registry:5000", "path/to/image", "bar")) == "registry:5000/path/to/image:bar"
  {
  }

  lemma RenderPlainFoo()
    ensures Render(ImageRef("registry", "path/to/image", "foo")) == "registry/path/to/image:foo"
  {
  }

  lemma RenderPlainUntagged()
    ensures Render(ImageRef("registry", "path/to/image", "")) == "registry/path/to/image"
  {
  }

  lemma RenderPlainBar()
    ensures Render(ImageRef("registry", "path/to/image", "bar")) == "registry/path/to/image:bar"
  {
  }

  lemma RenderPortSuffixedFoo()
    ensures Render(ImageRef("registry:5000", "path/to/image-migration-14-16", "foo")) == "registry:5000/path/to/image-migration-14-16:foo"
  {
    RenderTagged("registry:5000", "path/to/image-migration-14-16", "foo");
    assert "registry:5000" + "/" + "path/to/image-migration-14-16" + (":" + "foo") == "registry:5000/path/to/image-migration-14-16:foo" by {
      SpellPortSuffixedFoo();
    }
  }

  lemma SpellPortSuffixedFoo()
    ensures "registry:5000" + "/" + "path/to/image-migration-14-16" + (":" + "foo") == "registry:5000/path/to/image-migration-14-16:foo"
  {
  }

  lemma RenderPortSuffixedBar()
    ensures Render(ImageRef("registry:5000", "path/to/image-migration-14-16", "bar")) == "registry:5000/path/to/image-migration-14-16:bar"
  {
    RenderTagged("registry:5000", "path/to/image-migration-14-16", "bar");
    assert "registry:5000" + "/" + "path/to/image-migration-14-16" + (":" + "bar") == "registry:5000/path/to/image-migration-14-16:bar" by {
      SpellPortSuffixedBar();
    }
  }

  lemma SpellPortSuffixedBar()
    ensures "registry:5000" + "/" + "path/to/image-migration-14-16" + (":" + "bar") == "registry:5000/path/to/image-migration-14-16:bar"
  {
  }

  lemma RenderPlainSuffixedFoo()
    ensures Render(ImageRef("registry", "path/to/image-migration-14-16", "foo")) == "registry/path/to/image-migration-14-16:foo"
  {
    RenderTagged("registry", "path/to/image-migration-14-16", "foo");
    assert "registry" + "/" + "path/to/image-migration-14-16" + (":" + "foo") == "registry/path/to/image-migration-14-16:foo" by {
      SpellPlainSuffixedFoo();
    }
  }

  lemma SpellPlainSuffixedFoo()
    ensures "registry" + "/" + "path/to/image-migration-14-16" + (":" + "foo") == "registry/path/to/image-migration-14-16:foo"
  {
  }

  lemma RenderPlainSuffixedBar()
    ensures Render(ImageRef("registry", "path/to/image-migration-14-16", "bar")) == "registry/path/to/image-migration-14-16:bar"
  {
    RenderTagged("registry", "path/to/image-migration-14-16", "bar");
    assert "registry" + "/" + "path/to/image-migration-14-16" + (":" + "bar") == "registry/path/to/image-migration-14-16:bar" by {
      SpellPlainSuffixedBar();
    }
  }

  lemma SpellPlainSuffixedBar()
    ensures "registry" + "/" + "path/to/image-migration-14-16" + (":" + "bar") == "registry/path/to/image-migration-14-16:bar"
  {
  }

  /** `registry:5000/path/to/image:foo` with tag `bar`: the tag of the name wins. */
  lemma KeepsTag()
    ensures ComputeImage("registry:5000/path/to/image:foo", "bar", "")
              == Success("registry:5000/path/to/image:foo")
  {
    assert WellFormed(ImageRef("registry:5000", "path/to/image", "foo")) by {
      PortHost();
      TablePath();
      TableTag();
    }
    assert Render(ImageRef("registry:5000", "path/to/image", "foo")) == "registry:5000/path/to/image:foo" by {
      RenderPortFoo();
    }
    assert ToLower("registry:5000") == "registry:5000" by {
      LowerHosts();
    }
    assert "path/to/image" + "" == "path/to/image" by {
      TablePath();
    }
    assert Render(ImageRef("registry:5000", "path/to/image", "foo")) == "registry:5000/path/to/image:foo" by {
      RenderPortFoo();
    }
    Row("registry:5000", "path/to/image", "foo", "bar", "",
        "registry:5000/path/to/image:foo", "registry:5000", "path/to/image", "registry:5000/path/to/image:foo");
  }

  /** `REGISTRY:5000/path/to/image:foo` with tag `bar`: the registry is lower-cased. */
  lemma LowersRegistry()
    ensures ComputeImage("REGISTRY:5000/path/to/image:foo", "bar", "")
              == Success("registry:5000/path/to/image:foo")
  {
    assert WellFormed(ImageRef("REGISTRY:5000", "path/to/image", "foo")) by {
      UpperPortHost();
      TablePath();
      TableTag();
    }
    assert Render(ImageRef("REGISTRY:5000", "path/to/image", "foo")) == "REGISTRY:5000/path/to/image:foo" by {
      RenderUpperPortFoo();
    }
    assert ToLower("REGISTRY:5000") == "registry:5000" by {
      LowerHosts();
    }
    assert "path/to/image" + "" == "path/to/image" by {
      TablePath();
    }
    assert Render(ImageRef("registry:5000", "path/to/image", "foo")) == "registry:5000/path/to/image:foo" by {
      RenderPortFoo();
    }
    Row("REGISTRY:5000", "path/to/image", "foo", "bar", "",
        "REGISTRY:5000/path/to/image:foo", "registry:5000", "path/to/image", "registry:5000/path/to/image:foo");
  }

  /** `REGISTRY:5000/path/to/image:foo` with tag `BAR`: the tag argument is ignored, in any case. */
  lemma IgnoresGivenTag()
    ensures ComputeImage("REGISTRY:5000/path/to/image:foo", "BAR", "")
              == Success("registry:5000/path/to/image:foo")
  {
    assert WellFormed(ImageRef("REGISTRY:5000", "path/to/image", "foo")) by {
      UpperPortHost();
      TablePath();
      TableTag();
    }
    assert Render(ImageRef("REGISTRY:5000", "path/to/image", "foo")) == "REGISTRY:5000/path/to/image:foo" by {
      RenderUpperPortFoo();
    }
    assert ToLower("REGISTRY:5000") == "registry:5000" by {
      LowerHosts();
    }
    assert "path/to/image" + "" == "path/to/image" by {
      TablePath();
    }
    assert Render(ImageRef("registry:5000", "path/to/image", "foo")) == "registry:5000/path/to/image:foo" by {
      RenderPortFoo();
    }
    Row("REGISTRY:5000", "path/to/image", "foo", "BAR", "",
        "REGISTRY:5000/path/to/image:foo", "registry:5000", "path/to/image", "registry:5000/path/to/image:foo");
  }

  /** `registry:5000/path/to/image` with tag `bar`: the tag argument is appended. */
  lemma AddsTag()
    ensures ComputeImage("registry:5000/path/to/image", "bar", "")
              == Success("registry:5000/path/to/image:bar")
  {
    assert WellFormed(ImageRef("registry:5000", "path/to/image", "")) by {
      PortHost();
      TablePath();
      TableTag();
    }
    assert Render(ImageRef("registry:5000", "path/to/image", "")) == "registry:5000/path/to/image" by {
      RenderPortUntagged();
    }
    assert ToLower("registry:5000") == "registry:5000" by {
      LowerHosts();
    }
    assert "path/to/image" + "" == "path/to/image" by {
      TablePath();
    }
    assert Render(ImageRef("registry:5000", "path/to/image", "bar")) == "registry:5000/path/to/image:bar" by {
      RenderPortBar();
    }
    Row("registry:5000", "path/to/image", "", "bar", "",
        "registry:5000/path/to/image", "registry:5000", "path/to/image", "registry:5000/path/to/image:bar");
  }

  /** `registry/path/to/image:foo` with tag `bar`: a registry without a port. */
  lemma PlainKeepsTag()
    ensures ComputeImage("registry/path/to/image:foo", "bar", "")
              == Success("registry/path/to/image:foo")
  {
    assert WellFormed(ImageRef("registry", "path/to/image", "foo")) by {
      PlainHost();
      TablePath();
      TableTag();
    }
    assert Render(ImageRef("registry", "path/to/image", "foo")) == "registry/path/to/image:foo" by {
      RenderPlainFoo();
    }
    assert ToLower("registry") == "registry" by {
      LowerHosts();
    }
    assert "path/to/image" + "" == "path/to/image" by {
      TablePath();
    }
    assert Render(ImageRef("registry", "path/to/image", "foo")) == "registry/path/to/image:foo" by {
      RenderPlainFoo();
    }
    Row("registry", "path/to/image", "foo", "bar", "",
        "registry/path/to/image:foo", "registry", "path/to/image", "registry/path/to/image:foo");
  }

  /** `registry/path/to/image` with tag `bar`. */
  lemma PlainAddsTag()
    ensures ComputeImage("registry/path/to/image", "bar", "")
              == Success("registry/path/to/image:bar")
  {
    assert WellFormed(ImageRef("registry", "path/to/image", "")) by {
      PlainHost();
      TablePath();
      TableTag();
    }
    assert Render(ImageRef("registry", "path/to/image", "")) == "registry/path/to/image" by {
      RenderPlainUntagged();
    }
    assert ToLower("registry") == "registry" by {
      LowerHosts();
    }
    assert "path/to/image" + "" == "path/to/image" by {
      TablePath();
    }
    assert Render(ImageRef("registry", "path/to/image", "bar")) == "registry/path/to/image:bar" by {
      RenderPlainBar();
    }
    Row("registry", "path/to/image", "", "bar", "",
        "registry/path/to/image", "registry", "path/to/image", "registry/path/to/image:bar");
  }

  /** `registry:5000/path/to/image:foo` with tag `bar` and a migration suffix. */
  lemma SuffixKeepsTag()
    ensures ComputeImage("registry:5000/path/to/image:foo", "bar", "-migration-14-16")
              == Success("registry:5000/path/to/image-migration-14-16:foo")
  {
    assert WellFormed(ImageRef("registry:5000", "path/to/image", "foo")) by {
      PortHost();
      TablePath();
      TableTag();
    }
    assert Render(ImageRef("registry:5000", "path/to/image", "foo")) == "registry:5000/path/to/image:foo" by {
      RenderPortFoo();
    }
    assert ToLower("registry:5000") == "registry:5000" by {
      LowerHosts();
    }
    assert "path/to/image" + "-migration-14-16" == "path/to/image-migration-14-16" by {
      SuffixedPath();
    }
    assert Render(ImageRef("registry:5000", "path/to/image-migration-14-16", "foo")) == "registry:5000/path/to/image-migration-14-16:foo" by {
      RenderPortSuffixedFoo();
    }
    Row("registry:5000", "path/to/image", "foo", "bar", "-migration-14-16",
        "registry:5000/path/to/image:foo", "registry:5000", "path/to/image-migration-14-16", "registry:5000/path/to/image-migration-14-16:foo");
  }

  /** `registry:5000/path/to/image` with tag `bar` and a migration suffix. */
  lemma SuffixAddsTag()
    ensures ComputeImage("registry:5000/path/to/image", "bar", "-migration-14-16")
              == Success("registry:5000/path/to/image-migration-14-16:bar")
  {
    assert WellFormed(ImageRef("registry:5000", "path/to/image", "")) by {
      PortHost();
      TablePath();
      TableTag();
    }
    assert Render(ImageRef("registry:5000", "path/to/image", "")) == "registry:5000/path/to/image" by {
      RenderPortUntagged();
    }
    assert ToLower("registry:5000") == "registry:5000" by {
      LowerHosts();
    }
    assert "path/to/image" + "-migration-14-16" == "path/to/image-migration-14-16" by {
      SuffixedPath();
    }
    assert Render(ImageRef("registry:5000", "path/to/image-migration-14-16", "bar")) == "registry:5000/path/to/image-migration-14-16:bar" by {
      RenderPortSuffixedBar();
    }
    Row("registry:5000", "path/to/image", "", "bar", "-migration-14-16",
        "registry:5000/path/to/image", "registry:5000", "path/to/image-migration-14-16", "registry:5000/path/to/image-migration-14-16:bar");
  }

  /** `registry/path/to/image:foo` with tag `bar` and a migration suffix. */
  lemma PlainSuffixKeepsTag()
    ensures ComputeImage("registry/path/to/image:foo", "bar", "-migration-14-16")
              == Success("registry/path/to/image-migration-14-16:foo")
  {
    assert WellFormed(ImageRef("registry", "path/to/image", "foo")) by {
      PlainHost();
      TablePath();
      TableTag();
    }
    assert Render(ImageRef("registry", "path/to/image", "foo")) == "registry/path/to/image:foo" by {
      RenderPlainFoo();
    }
    assert ToLower("registry") == "registry" by {
      LowerHosts();
    }
    assert "path/to/image" + "-migration-14-16" == "path/to/image-migration-14-16" by {
      SuffixedPath();
    }
    assert Render(ImageRef("registry", "path/to/image-migration-14-16", "foo")) == "registry/path/to/image-migration-14-16:foo" by {
      RenderPlainSuffixedFoo();
    }
    Row("registry", "path/to/image", "foo", "bar", "-migration-14-16",
        "registry/path/to/image:foo", "registry", "path/to/image-migration-14-16", "registry/path/to/image-migration-14-16:foo");
  }

  /** `registry/path/to/image` with tag `bar` and a migration suffix. */
  lemma PlainSuffixAddsTag()
    ensures ComputeImage("registry/path/to/image", "bar", "-migration-14-16")
              == Success("registry/path/to/image-migration-14-16:bar")
  {
    assert WellFormed(ImageRef("registry", "path/to/image", "")) by {
      PlainHost();
      TablePath();
      TableTag();
    }
    assert Render(ImageRef("registry", "path/to/image", "")) == "registry/path/to/image" by {
      RenderPlainUntagged();
    }
    assert ToLower("registry") == "registry" by {
      LowerHosts();
    }
    assert "path/to/image" + "-migration-14-16" == "path/to/image-migration-14-16" by {
      SuffixedPath();
    }
    assert Render(ImageRef("registry", "path/to/image-migration-14-16", "bar")) == "registry/path/to/image-migration-14-16:bar" by {
      RenderPlainSuffixedBar();
    }
    Row("registry", "path/to/image", "", "bar", "-migration-14-16",
        "registry/path/to/image", "registry", "path/to/image-migration-14-16", "registry/path/to/image-migration-14-16:bar");
  }

  /** One `ComputePTF` row: a name with a registry host and a tag gives the
      image on the same registry, under `a/<user>/<ptf>/`, tagged
      `<tag>-<suffix>-<ptf>`. */
  lemma PtfRow(host: string, path: string, tag: string, user: string, ptf: string, suffix: string,
               name: string, outPath: string, outTag: string, out: string)
    requires WellFormed(ImageRef(host, path, tag)) && host != "" && tag != ""
    requires Render(ImageRef(host, path, tag)) == name
    requires "a/" + user + "/" + ptf + "/" + path == outPath && tag + "-" + suffix + "-" + ptf == outTag
    requires Render(ImageRef(host, outPath, outTag)) == out
    ensures ComputePTF(user, ptf, name, suffix) == Success(out)
  {
    RegistryParse(ImageRef(host, path, tag));
  }

  lemma SuseHost() ensures IsRegistryHost("registry.suse.com")
  {
    HostWithoutPort("registry.suse.com");
  }

  lemma HelmPath() ensures Lacks("suse/manager/5.0/x86_64/proxy-helm", ':') && Lacks("latest", ':')
  {
  }

  /** Concatenation regrouped, so that each literal fact below joins two
      pieces only. */
  lemma Regroup(a: string, b: string, c: string) ensures a + (b + c) == a + b + c
  {
  }

  lemma HelmHalves() ensures "suse/manager/" + "5.0/x86_64/proxy-helm" == "suse/manager/5.0/x86_64/proxy-helm"
  {
  }

  lemma SuseManager() ensures "registry.suse.com/" + "suse/manager/" == "registry.suse.com/suse/manager/"
  {
  }

  lemma SuseHelm()
    ensures "registry.suse.com/suse/manager/" + "5.0/x86_64/proxy-helm" == "registry.suse.com/suse/manager/5.0/x86_64/proxy-helm"
  {
  }

  lemma SuseHelmLatest()
    ensures "registry.suse.com/suse/manager/5.0/x86_64/proxy-helm" + ":latest" == "registry.suse.com/suse/manager/5.0/x86_64/proxy-helm:latest"
  {
  }

  lemma PtfManager() ensures "a/a196136/27977/" + "suse/manager/" == "a/a196136/27977/suse/manager/"
  {
  }

  lemma PtfHelm()
    ensures "a/a196136/27977/suse/manager/" + "5.0/x86_64/proxy-helm" == "a/a196136/27977/suse/manager/5.0/x86_64/proxy-helm"
  {
  }

  lemma SusePtfManager()
    ensures "registry.suse.com/a/a196136/27977/" + "suse/manager/" == "registry.suse.com/a/a196136/27977/suse/manager/"
  {
  }

  lemma SusePtfHelm()
    ensures "registry.suse.com/a/a196136/27977/suse/manager/" + "5.0/x86_64/proxy-helm"
              == "registry.suse.com/a/a196136/27977/suse/manager/5.0/x86_64/proxy-helm"
  {
  }

  lemma SusePtfHelmTagged()
    ensures "registry.suse.com/a/a196136/27977/suse/manager/5.0/x86_64/proxy-helm" + ":latest-ptf-27977"
              == "registry.suse.com/a/a196136/27977/suse/manager/5.0/x86_64/proxy-helm:latest-ptf-27977"
  {
  }

  lemma PtfPath()
    ensures "a/" + "a196136" + "/" + "27977" + "/" + "suse/manager/5.0/x86_64/proxy-helm"
              == "a/a196136/27977/suse/manager/5.0/x86_64/proxy-helm"
  {
    assert "a/" + "a196136" + "/" + "27977" + "/" == "a/a196136/27977/";
    HelmHalves();
    PtfManager();
    PtfHelm();
    Regroup("a/a196136/27977/", "suse/manager/", "5.0/x86_64/proxy-helm");
  }

  lemma PtfTag() ensures "latest" + "-" + "ptf" + "-" + "27977" == "latest-ptf-27977"
  {
  }

  lemma RenderHelm()
    ensures Render(ImageRef("registry.suse.com", "suse/manager/5.0/x86_64/proxy-helm", "latest"))
              == "registry.suse.com/suse/manager/5.0/x86_64/proxy-helm:latest"
  {
    RenderTagged("registry.suse.com", "suse/manager/5.0/x86_64/proxy-helm", "latest");
    assert "registry.suse.com" + "/" + "suse/manager/5.0/x86_64/proxy-helm" + (":" + "latest")
             == "registry.suse.com/suse/manager/5.0/x86_64/proxy-helm:latest" by {
      SpellHelm();
    }
  }

  lemma SpellHelm()
    ensures "registry.suse.com" + "/" + "suse/manager/5.0/x86_64/proxy-helm" + (":" + "latest")
              == "registry.suse.com/suse/manager/5.0/x86_64/proxy-helm:latest"
  {
    assert "registry.suse.com" + "/" == "registry.suse.com/";
    assert ":" + "latest" == ":latest";
    HelmHalves();
    SuseManager();
    SuseHelm();
    SuseHelmLatest();
    Regroup("registry.suse.com/", "suse/manager/", "5.0/x86_64/proxy-helm");
  }

  lemma RenderPtfHelm()
    ensures Render(ImageRef("registry.suse.com", "a/a196136/27977/suse/manager/5.0/x86_64/proxy-helm", "latest-ptf-27977"))
              == "registry.suse.com/a/a196136/27977/suse/manager/5.0/x86_64/proxy-helm:latest-ptf-27977"
  {
    RenderTagged("registry.suse.com", "a/a196136/27977/suse/manager/5.0/x86_64/proxy-helm", "latest-ptf-27977");
    assert "registry.suse.com" + "/" + "a/a196136/27977/suse/manager/5.0/x86_64/proxy-helm" + (":" + "latest-ptf-27977")
             == "registry.suse.com/a/a196136/27977/suse/manager/5.0/x86_64/proxy-helm:latest-ptf-27977" by {
      SpellPtfHelm();
    }
  }

  lemma SusePtfPath()
    ensures "registry.suse.com/" + "a/a196136/27977/suse/manager/5.0/x86_64/proxy-helm"
              == "registry.suse.com/a/a196136/27977/suse/manager/5.0/x86_64/proxy-helm"
  {
    assert "registry.suse.com/" + "a/a196136/27977/" == "registry.suse.com/a/a196136/27977/";
    HelmHalves();
    PtfManager();
    SusePtfManager();
    SusePtfHelm();
    Regroup("a/a196136/27977/", "suse/manager/", "5.0/x86_64/proxy-helm");
    Regroup("registry.suse.com/", "a/a196136/27977/suse/manager/", "5.0/x86_64/proxy-helm");
    Regroup("registry.suse.com/", "a/a196136/27977/", "suse/manager/");
  }

  lemma SpellPtfHelm()
    ensures "registry.suse.com" + "/" + "a/a196136/27977/suse/manager/5.0/x86_64/proxy-helm" + (":" + "latest-ptf-27977")
              == "registry.suse.com/a/a196136/27977/suse/manager/5.0/x86_64/proxy-helm:latest-ptf-27977"
  {
    assert "registry.suse.com" + "/" == "registry.suse.com/";
    assert ":" + "latest-ptf-27977" == ":latest-ptf-27977";
    SusePtfPath();
    SusePtfHelmTagged();
  }

  /** A PTF image of a tagged image from a registry. */
  lemma PtfOfTagged()
    ensures ComputePTF("a196136", "27977", "registry.suse.com/suse/manager/5.0/x86_64/proxy-helm:latest", "ptf")
              == Success("registry.suse.com/a/a196136/27977/suse/manager/5.0/x86_64/proxy-helm:latest-ptf-27977")
  {
    assert WellFormed(ImageRef("registry.suse.com", "suse/manager/5.0/x86_64/proxy-helm", "latest")) by {
      SuseHost();
      HelmPath();
    }
    assert Render(ImageRef("registry.suse.com", "suse/manager/5.0/x86_64/proxy-helm", "latest"))
             == "registry.suse.com/suse/manager/5.0/x86_64/proxy-helm:latest" by {
      RenderHelm();
    }
    assert "a/" + "a196136" + "/" + "27977" + "/" + "suse/manager/5.0/x86_64/proxy-helm"
             == "a/a196136/27977/suse/manager/5.0/x86_64/proxy-helm" by {
      PtfPath();
    }
    assert "latest" + "-" + "ptf" + "-" + "27977" == "latest-ptf-27977" by {
      PtfTag();
    }
    assert Render(ImageRef("registry.suse.com", "a/a196136/27977/suse/manager/5.0/x86_64/proxy-helm", "latest-ptf-27977"))
             == "registry.suse.com/a/a196136/27977/suse/manager/5.0/x86_64/proxy-helm:latest-ptf-27977" by {
      RenderPtfHelm();
    }
    PtfRow("registry.suse.com", "suse/manager/5.0/x86_64/proxy-helm", "latest", "a196136", "27977", "ptf",
           "registry.suse.com/suse/manager/5.0/x86_64/proxy-helm:latest",
           "a/a196136/27977/suse/manager/5.0/x86_64/proxy-helm", "latest-ptf-27977",
           "registry.suse.com/a/a196136/27977/suse/manager/5.0/x86_64/proxy-helm:latest-ptf-27977");
  }
}
