/**
 Job identity. The four job families carry names built from the cluster name, the family and the
 sanitised version; elsewhere a job is keyed by its family and sanitised version, which is the same
 thing by NamesIdentifyJobs.
 */
module JobNames {
  datatype Family = NsRegister | SearchAttr | MaintenanceStart | MaintenanceEnd

  datatype JobKey = JobKey(family: Family, tag: string)

  /** SanitizeVersion: strings.ReplaceAll(version, ".", "-"). */
  function Sanitize(version: string): (tag: string)
    ensures |tag| == |version|
    ensures forall i :: 0 <= i < |version| ==> tag[i] == if version[i] == '.' then '-' else version[i]
  {
    if version == "" then ""
    else [if version[0] == '.' then '-' else version[0]] + Sanitize(version[1..])
  }

  function Infix(f: Family): string {
    match f
    case NsRegister => "-temporal-ns-register-"
    case SearchAttr => "-temporal-search-attr-"
    case MaintenanceStart => "-maintenance-start-"
    case MaintenanceEnd => "-maintenance-end-"
  }

  /** The name the builders give a job; the failure check of the InitJobs phase rebuilds the same text. */
  function Name(cluster: string, key: JobKey): string {
    cluster + Infix(key.family) + key.tag
  }

  function KeyOf(f: Family, version: string): JobKey {
    JobKey(f, Sanitize(version))
  }

  /** For one cluster, two jobs share a name only if they are of one family and their versions sanitise alike. */
  lemma NamesIdentifyJobs(cluster: string, a: JobKey, b: JobKey)
    ensures Name(cluster, a) == Name(cluster, b) <==> a == b
  {
    if Name(cluster, a) == Name(cluster, b) {
      var n := |cluster|;
      var s, t := Name(cluster, a), Name(cluster, b);
      assert s[n..] == Infix(a.family) + a.tag;
      assert t[n..] == Infix(b.family) + b.tag;
      InfixesDiffer(a.family, b.family, a.tag, b.tag);
      var k := n + |Infix(a.family)|;
      assert s[k..] == a.tag && t[k..] == b.tag;
    }
  }

  /** The four names in full. */
  lemma NamesSpelled(cluster: string, version: string)
    ensures Name(cluster, KeyOf(NsRegister, version)) == cluster + "-temporal-ns-register-" + Sanitize(version)
    ensures Name(cluster, KeyOf(SearchAttr, version)) == cluster + "-temporal-search-attr-" + Sanitize(version)
    ensures Name(cluster, KeyOf(MaintenanceStart, version)) == cluster + "-maintenance-" + "start" + "-" + Sanitize(version)
    ensures Name(cluster, KeyOf(MaintenanceEnd, version)) == cluster + "-maintenance-" + "end" + "-" + Sanitize(version)
  {
    hide Sanitize;
    assert "-maintenance-" + "start" + "-" == "-maintenance-start-" && "-maintenance-" + "end" + "-" == "-maintenance-end-";
    assert cluster + "-maintenance-" + "start" + "-" == cluster + "-maintenance-start-";
    assert cluster + "-maintenance-" + "end" + "-" == cluster + "-maintenance-end-";
  }

  lemma InfixesDiffer(f: Family, g: Family, x: string, y: string)
    requires Infix(f) + x == Infix(g) + y
    ensures f == g
  {
    var s, t := Infix(f) + x, Infix(g) + y;
    assert s[1] == Infix(f)[1] && t[1] == Infix(g)[1];
    assert s[10] == Infix(f)[10] && t[10] == Infix(g)[10];
    assert s[13] == Infix(f)[13] && t[13] == Infix(g)[13];
  }

  /** Sanitising confuses two versions exactly when they differ only in '.' against '-'. */
  lemma SanitizeConfuses(v: string, w: string)
    ensures Sanitize(v) == Sanitize(w) <==>
            && |v| == |w|
            && forall i :: 0 <= i < |v| ==> v[i] == w[i] || (IsSeparator(v[i]) && IsSeparator(w[i]))
  {
    hide Sanitize;
    if Sanitize(v) == Sanitize(w) {
      forall i | 0 <= i < |v| ensures v[i] == w[i] || (IsSeparator(v[i]) && IsSeparator(w[i])) {
        assert Sanitize(v)[i] == Sanitize(w)[i];
      }
    }
  }

  predicate IsSeparator(c: char) { c == '.' || c == '-' }

  /** Hence versions without '-' keep their own jobs. */
  lemma SanitizeInjective(v: string, w: string)
    requires '-' !in v && '-' !in w
    ensures Sanitize(v) == Sanitize(w) <==> v == w
  {
    SanitizeConfuses(v, w);
    if Sanitize(v) == Sanitize(w) { assert v == w; }
  }

  /** Two different versions that share every job name. */
  lemma SanitizeCollision(cluster: string, f: Family)
    ensures "v1.2-3" != "v1-2.3"
    ensures Name(cluster, KeyOf(f, "v1.2-3")) == Name(cluster, KeyOf(f, "v1-2.3"))
  {
    SanitizeConfuses("v1.2-3", "v1-2.3");
    assert "v1.2-3"[2] != "v1-2.3"[2];
  }
}
