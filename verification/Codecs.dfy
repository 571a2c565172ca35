/** The store keys of IP and container records. */
module Codecs {
  import opened Types

  predicate SlashFree(s: string) {
    '/' !in s
  }

  function IPKey(poolID: string, address: string): string {
    if address == "" then ""
    else if poolID == "" then "/barrel/addresses/" + address
    else "/barrel/pools/" + poolID + "/addresses/" + address
  }

  function KeyOf(ip: IP): string {
    IPKey(ip.poolID, ip.address)
  }

  function IPInfoKey(info: IPInfo): string {
    IPKey(info.poolID, info.address)
  }

  function ContainerKey(c: Container): string {
    if c.id == "" || c.hostName == "" then ""
    else "/barrel/hosts/" + c.hostName + "/containers/" + c.id
  }

  function ContainerInfoKey(info: ContainerInfo): string {
    ContainerKey(info.container)
  }

  const SEPARATOR := "/addresses/"

  predicate OccursAt(s: string, i: int) {
    0 <= i && i + |SEPARATOR| <= |s| && s[i..i + |SEPARATOR|] == SEPARATOR
  }

  /** The IP is in a pool, and its address reads as the rest of a pool id, the separator and another address. */
  predicate Ambiguous(poolID: string, address: string) {
    poolID != "" && exists i :: 0 <= i < |address| && OccursAt("/" + address, i) && i + |SEPARATOR| < |"/" + address|
  }

  lemma SlashFreeUnambiguous(poolID: string, address: string)
    requires SlashFree(address)
    ensures !Ambiguous(poolID, address)
  {
    var s := "/" + address;
    forall i | 0 <= i && i + |SEPARATOR| < |s| ensures !OccursAt(s, i) {
      assert s[i..i + |SEPARATOR|][10] == address[i + 9];
    }
  }

  /** Pooled and unpooled keys part after "/barrel/". */
  lemma PooledApart(p: string, a: string, q: string, b: string)
    requires a != "" && b != "" && IPKey(p, a) == IPKey(q, b)
    ensures p == "" <==> q == ""
    ensures p == "" ==> a == b
    ensures p != "" ==> p + SEPARATOR + a == q + SEPARATOR + b
  {
    var k := IPKey(p, a);
    assert (k[8] == 'a' <==> p == "") && (k[8] == 'a' <==> q == "");
    if p == "" {
      assert a == k[|"/barrel/addresses/"|..] == b;
    } else {
      assert p + SEPARATOR + a == k[|"/barrel/pools/"|..];
      assert q + SEPARATOR + b == ("/barrel/pools/" + (q + SEPARATOR + b))[|"/barrel/pools/"|..];
      assert k == "/barrel/pools/" + (q + SEPARATOR + b);
    }
  }

  /** Where the shorter address begins, the longer one holds a separator. */
  lemma SplitLater(p: string, a: string, q: string, b: string)
    requires p + SEPARATOR + a == q + SEPARATOR + b && |b| < |a| && b != ""
    ensures var i := |q| - |p| - |SEPARATOR| + 1;
      0 <= i < |a| && OccursAt("/" + a, i) && i + |SEPARATOR| < |"/" + a|
  {
    var t := p + SEPARATOR + a;
    var m := |q| - |p|;
    assert t[|q|] == '/' && t[|q|..|q| + |SEPARATOR|] == SEPARATOR;
    // within the separator only its two ends are slashes
    assert m < |SEPARATOR| ==> t[|q|] == SEPARATOR[m];
    assert m >= |SEPARATOR| - 1;
    var s, i := "/" + a, m - |SEPARATOR| + 1;
    assert s == t[|p| + |SEPARATOR| - 1..];
    assert s[i..i + |SEPARATOR|] == t[|q|..|q| + |SEPARATOR|];
  }

  /** The only ways to share a key: being the same IP, or one of the two being ambiguous. */
  lemma IPKeyInjective(p: string, a: string, q: string, b: string)
    requires a != "" && b != "" && !Ambiguous(p, a) && !Ambiguous(q, b)
    requires IPKey(p, a) == IPKey(q, b)
    ensures p == q && a == b
  {
    PooledApart(p, a, q, b);
    if p != "" {
      if |b| < |a| {
        SplitLater(p, a, q, b);
      } else if |a| < |b| {
        SplitLater(q, b, p, a);
      } else {
        var t := p + SEPARATOR + a;
        assert p == t[..|p|] && q == t[..|q|] && a == t[|p| + |SEPARATOR|..] && b == t[|q| + |SEPARATOR|..];
      }
    }
  }

  lemma PooledKey(p: string, a: string)
    requires p != "" && a != ""
    ensures IPKey(p, a) == "/barrel/pools/" + (p + SEPARATOR + a)
  {
  }

  lemma AmbiguousShares(p: string, a: string) returns (q: string, b: string)
    requires Ambiguous(p, a)
    ensures b != "" && |b| < |a| && IPKey(q, b) == IPKey(p, a)
  {
    hide IPKey;
    var s := "/" + a;
    var i :| 0 <= i < |a| && OccursAt(s, i) && i + |SEPARATOR| < |s|;
    q, b := p + "/addresses" + s[..i], s[i + |SEPARATOR|..];
    assert s == s[..i] + SEPARATOR + b;
    SameText(p, a, s[..i], b);
    PooledKey(p, a);
    PooledKey(q, b);
  }

  lemma SameText(p: string, a: string, x: string, b: string)
    requires "/" + a == x + SEPARATOR + b
    ensures p + "/addresses" + x + SEPARATOR + b == p + SEPARATOR + a
  {
    assert SEPARATOR == "/addresses" + "/";
    calc {
      p + "/addresses" + x + SEPARATOR + b;
      p + "/addresses" + (x + SEPARATOR + b);
      p + "/addresses" + ("/" + a);
      p + ("/addresses" + "/") + a;
    }
  }

  /** Exactly the ambiguous IPs share their key with an IP of a shorter address. */
  lemma SharesKeyIffAmbiguous(p: string, a: string)
    requires a != ""
    ensures Ambiguous(p, a) <==> exists q, b :: b != "" && |b| < |a| && IPKey(q, b) == IPKey(p, a)
  {
    hide IPKey;
    if Ambiguous(p, a) {
      var q, b := AmbiguousShares(p, a);
    }
    if exists q, b :: b != "" && |b| < |a| && IPKey(q, b) == IPKey(p, a) {
      var q, b :| b != "" && |b| < |a| && IPKey(q, b) == IPKey(p, a);
      PooledApart(p, a, q, b);
      SplitLater(p, a, q, b);
    }
  }

  /** Two IPs, one of them ambiguous, that share one record. */
  lemma AmbiguousAddressCollides()
    ensures Ambiguous("a", "b/addresses/c") && !Ambiguous("a/addresses/b", "c")
    ensures IPKey("a", "b/addresses/c") == IPKey("a/addresses/b", "c")
  {
    assert OccursAt("/" + "b/addresses/c", 2);
    SlashFreeUnambiguous("a/addresses/b", "c");
    hide IPKey;
    PooledKey("a", "b/addresses/c");
    PooledKey("a/addresses/b", "c");
    assert "a" + SEPARATOR + "b/addresses/c" == "a/addresses/b" + SEPARATOR + "c";
  }

  /** No IP record and container record ever share a key, so the two kinds can be kept in two maps. */
  lemma KindsDisjoint(p: string, a: string, c: Container)
    requires a != ""
    ensures IPKey(p, a) != ContainerKey(c)
  {
    if ContainerKey(c) != "" {
      assert ContainerKey(c)[8] == 'h';
      assert IPKey(p, a)[8] in {'a', 'p'};
    }
  }

  /** A container's key names it: no two have the same, as long as host names hold no slash. */
  lemma ContainerKeyInjective(c: Container, d: Container)
    requires SlashFree(c.hostName) && SlashFree(d.hostName)
    requires ContainerKey(c) == ContainerKey(d) != ""
    ensures c == d
  {
    var root := "/barrel/hosts/";
    var k := ContainerKey(c);
    assert k == root + (c.hostName + "/containers/" + c.id) == root + (d.hostName + "/containers/" + d.id);
    var t := k[|root|..];
    assert t == c.hostName + ("/containers/" + c.id) == d.hostName + ("/containers/" + d.id);
    FirstSlash(c.hostName, "/containers/" + c.id, d.hostName, "/containers/" + d.id);
    assert c.id == ("/containers/" + c.id)[|"/containers/"|..];
    assert d.id == ("/containers/" + d.id)[|"/containers/"|..];
  }

  /** A text has one slash-free part before its first slash. */
  lemma FirstSlash(h: string, x: string, g: string, y: string)
    requires SlashFree(h) && SlashFree(g) && x != [] && y != [] && x[0] == '/' == y[0]
    requires h + x == g + y
    ensures h == g && x == y
  {
    var t := h + x;
    assert t[|h|] == '/' && t[|g|] == '/';
    assert forall i :: 0 <= i < |h| ==> t[i] == h[i];
    assert forall i :: 0 <= i < |g| ==> t[i] == g[i];
    assert h == t[..|h|] && g == t[..|g|] && x == t[|h|..] && y == t[|g|..];
  }

  /** With a slash in a host name two containers can share a key. */
  lemma HostWithSlashCollides()
    ensures ContainerKey(Container("b/containers/c", "a")) == ContainerKey(Container("c", "a/containers/b"))
  {
    var root, mid := "/barrel/hosts/a", "/containers/";
    calc {
      ContainerKey(Container("b/containers/c", "a"));
      { assert "b/containers/c" == "b" + mid + "c"; }
      root + mid + ("b" + mid + "c");
      (root + mid + "b") + mid + "c";
      { assert "/barrel/hosts/" + "a/containers/b" == root + mid + "b"; }
      ContainerKey(Container("c", "a/containers/b"));
    }
  }

  /** The keys as they are written, and the blank ones. */
  lemma KeyTexts()
    ensures IPKey("p", "10.0.0.1") == "/barrel/pools/p/addresses/10.0.0.1"
    ensures IPKey("", "10.0.0.1") == "/barrel/addresses/10.0.0.1"
    ensures ContainerKey(Container("c", "h")) == "/barrel/hosts/h/containers/c"
    ensures IPKey("p", "") == "" && ContainerKey(Container("", "h")) == "" && ContainerKey(Container("c", "")) == ""
  {
  }
}
