/**
 ComputeConfigHash up to the digest: the text written to SHA-256. The digest is left out, so in this
 model the config hash of a text is the text.
 */
module ConfigHash {
  import opened Basics

  /** The order of sort.Strings. */
  predicate LexLe(a: string, b: string) {
    if a == "" then true
    else if b == "" then false
    else a[0] < b[0] || (a[0] == b[0] && LexLe(a[1..], b[1..]))
  }

  lemma LexTotal(a: string, b: string)
    ensures LexLe(a, b) || LexLe(b, a)
  {
  }

  lemma LexAntisymmetric(a: string, b: string)
    requires LexLe(a, b) && LexLe(b, a)
    ensures a == b
  {
    if a != "" {
      LexAntisymmetric(a[1..], b[1..]);
      assert a == [a[0]] + a[1..] && b == [b[0]] + b[1..];
    }
  }

  lemma LexTransitive(a: string, b: string, c: string)
    requires LexLe(a, b) && LexLe(b, c)
    ensures LexLe(a, c)
  {
  }

  ghost predicate Sorted(keys: seq<string>) {
    forall i, j :: 0 <= i < j < |keys| ==> LexLe(keys[i], keys[j]) && keys[i] != keys[j]
  }

  /** `keys` lists the set s, each element once. */
  ghost predicate Lists(keys: seq<string>, s: set<string>) {
    && (forall k :: k in s <==> k in keys)
    && (forall i, j :: 0 <= i < j < |keys| ==> keys[i] != keys[j])
  }

  lemma LeastExists(s: set<string>) returns (k: string)
    requires s != {}
    ensures k in s && forall x :: x in s ==> LexLe(k, x)
  {
    var first :| first in s;
    k := first;
    LexLeRefl(k);
    var rest := s - {first};
    if rest != {} {
      var m := LeastExists(rest);
      LexTotal(first, m);
      k := if LexLe(m, first) then m else first;
      forall x | x in s ensures LexLe(k, x) {
        if x != first { assert x in rest; LexTransitive(k, m, x); }
      }
    } else {
      assert forall x :: x in s ==> x in rest || x == first;
    }
  }

  function Least(s: set<string>): (k: string)
    requires s != {}
    ensures k in s && forall x :: x in s ==> LexLe(k, x)
  {
    assert exists k :: k in s && forall x :: x in s ==> LexLe(k, x) by { var k := LeastExists(s); }
    assert forall a, b | a in s && b in s && LexLe(a, b) && LexLe(b, a) :: a == b by {
      forall a, b | a in s && b in s && LexLe(a, b) && LexLe(b, a) ensures a == b { LexAntisymmetric(a, b); }
    }
    var k :| k in s && forall x :: x in s ==> LexLe(k, x);
    k
  }

  function SortedKeys(s: set<string>): (keys: seq<string>)
    ensures Lists(keys, s) && Sorted(keys)
  {
    if s == {} then [] else
      var k := Least(s);
      [k] + SortedKeys(s - {k})
  }

  /** A set has one sorted listing. */
  lemma {:induction false} SortedListingUnique(a: seq<string>, b: seq<string>, s: set<string>)
    requires Lists(a, s) && Sorted(a) && Lists(b, s) && Sorted(b)
    ensures a == b
  {
    if s != {} {
      var k :| k in s;
      FirstIsLeast(a, k, s);
      FirstIsLeast(b, k, s);
      FirstIsLeast(a, b[0], s);
      FirstIsLeast(b, a[0], s);
      LexAntisymmetric(a[0], b[0]);
      assert Lists(a[1..], s - {a[0]}) by { TailLists(a, s); }
      assert Lists(b[1..], s - {b[0]}) by { TailLists(b, s); }
      SortedListingUnique(a[1..], b[1..], s - {a[0]});
      assert a == [a[0]] + a[1..] && b == [b[0]] + b[1..];
    } else {
      NothingListed(a);
      NothingListed(b);
    }
  }

  lemma NothingListed(a: seq<string>)
    requires Lists(a, {})
    ensures a == []
  {
    if |a| > 0 {
      ListedMember(a, {});
      assert false;
    }
  }

  lemma ListedMember(a: seq<string>, s: set<string>)
    requires Lists(a, s) && |a| > 0
    ensures a[0] in s
  {
    assert a[0] in a;
  }

  lemma FirstIsLeast(a: seq<string>, k: string, s: set<string>)
    requires Lists(a, s) && Sorted(a) && k in s
    ensures |a| > 0 && a[0] in s && LexLe(a[0], k)
  {
    LexLeRefl(k);
    var i :| 0 <= i < |a| && a[i] == k;
    assert a[0] in a;
  }

  lemma LexLeRefl(a: string)
    ensures LexLe(a, a)
  {
  }

  lemma TailLists(a: seq<string>, s: set<string>)
    requires Lists(a, s) && |a| > 0
    ensures Lists(a[1..], s - {a[0]})
  {
    assert forall k :: k in a <==> k == a[0] || k in a[1..];
  }

  function Line(tag: string, k: string, v: string): string {
    tag + ":" + k + "=" + v + "\n"
  }

  function Lines(tag: string, keys: seq<string>, m: map<string, string>): string
    requires forall k :: k in keys ==> k in m
  {
    if keys == [] then "" else Line(tag, keys[0], m[keys[0]]) + Lines(tag, keys[1..], m)
  }

  function Section(tag: string, m: map<string, string>): string {
    Lines(tag, SortedKeys(m.Keys), m)
  }

  /** The text hashed for a ConfigMap and the resource versions of secrets. */
  function Text(config: map<string, string>, secrets: map<string, string>): string {
    Section("config", config) + Section("secret", secrets)
  }

  // ----- the parser that recovers both maps -----

  datatype Entry = Entry(tag: string, key: string, value: string)

  function IndexOf(s: string, c: char): (i: nat)
    ensures i <= |s|
    ensures forall k :: 0 <= k < i ==> s[k] != c
    ensures i < |s| ==> s[i] == c
  {
    if s == "" || s[0] == c then 0 else 1 + IndexOf(s[1..], c)
  }

  /** The text up to the first c, and what follows that c. */
  function Cut(s: string, c: char): (r: (string, string))
    ensures |r.1| < |s| || s == ""
  {
    var i := IndexOf(s, c);
    if i == |s| then (s, "") else (s[..i], s[i + 1..])
  }

  function Parse(text: string): seq<Entry>
    decreases |text|
  {
    if text == "" then []
    else
      var (line, rest) := Cut(text, '\n');
      var (tag, body) := Cut(line, ':');
      var (key, value) := Cut(body, '=');
      [Entry(tag, key, value)] + Parse(rest)
  }

  /** The map of the entries under one tag. */
  function ToMap(es: seq<Entry>, tag: string): map<string, string> {
    if es == [] then map[]
    else
      var m := ToMap(es[1..], tag);
      if es[0].tag == tag then m[es[0].key := es[0].value] else m
  }

  /** Keys without '=' or newline, values without newline. */
  ghost predicate Clean(m: map<string, string>) {
    forall k :: k in m ==> '=' !in k && '\n' !in k && '\n' !in m[k]
  }

  lemma CutAt(a: string, c: char, b: string)
    requires c !in a
    ensures Cut(a + [c] + b, c) == (a, b)
  {
    var s := a + [c] + b;
    assert s[|a|] == c && s[..|a|] == a && s[|a| + 1..] == b;
    var i := IndexOf(s, c);
    assert i >= |a| by { assert forall k :: 0 <= k < |a| ==> s[k] == a[k] && a[k] in a; }
  }

  lemma ParseOneLine(tag: string, k: string, v: string, tail: string)
    requires ':' !in tag && '\n' !in tag && '=' !in k && '\n' !in k && '\n' !in v
    ensures Parse(Line(tag, k, v) + tail) == [Entry(tag, k, v)] + Parse(tail)
  {
    var body := k + ['='] + v;
    var line := tag + [':'] + body;
    var text := Line(tag, k, v) + tail;
    assert text == line + ['\n'] + tail;
    CutAt(line, '\n', tail);
    CutAt(tag, ':', body);
    CutAt(k, '=', v);
  }

  function Entries(tag: string, keys: seq<string>, m: map<string, string>): seq<Entry>
    requires forall k :: k in keys ==> k in m
  {
    if keys == [] then [] else [Entry(tag, keys[0], m[keys[0]])] + Entries(tag, keys[1..], m)
  }

  lemma Associate<T>(a: seq<T>, b: seq<T>, c: seq<T>)
    ensures a + b + c == a + (b + c)
  {
  }

  lemma {:induction false} ParseLines(tag: string, keys: seq<string>, m: map<string, string>, tail: string)
    requires ':' !in tag && '\n' !in tag
    requires Clean(m) && forall k :: k in keys ==> k in m
    ensures Parse(Lines(tag, keys, m) + tail) == Entries(tag, keys, m) + Parse(tail)
  {
    if keys == [] {
      assert Lines(tag, keys, m) + tail == tail;
    } else {
      hide Line, Parse;
      var k := keys[0];
      var first, rest := Line(tag, k, m[k]), Lines(tag, keys[1..], m);
      ParseLines(tag, keys[1..], m, tail);
      Associate(first, rest, tail);
      ParseOneLine(tag, k, m[k], rest + tail);
      Associate([Entry(tag, k, m[k])], Entries(tag, keys[1..], m), Parse(tail));
    }
  }

  lemma {:induction false} ToMapOfEntries(tag: string, keys: seq<string>, m: map<string, string>, es: seq<Entry>, asked: string)
    requires forall k :: k in keys ==> k in m
    requires asked == tag ==> ToMap(es, asked) == map[]
    ensures ToMap(Entries(tag, keys, m) + es, asked) ==
            if asked == tag then map k | k in keys :: m[k] else ToMap(es, asked)
  {
    if keys == [] {
      assert Entries(tag, keys, m) + es == es;
    } else {
      var all := Entries(tag, keys, m) + es;
      var first, rest := Entry(tag, keys[0], m[keys[0]]), Entries(tag, keys[1..], m) + es;
      assert all == [first] + rest by { Associate([first], Entries(tag, keys[1..], m), es); }
      ToMapOfEntries(tag, keys[1..], m, es, asked);
      ToMapFirst(first, rest, asked);
      assert forall k :: k in keys <==> k == keys[0] || k in keys[1..];
    }
  }

  lemma ToMapFirst(e: Entry, es: seq<Entry>, tag: string)
    ensures ToMap([e] + es, tag) == if e.tag == tag then ToMap(es, tag)[e.key := e.value] else ToMap(es, tag)
  {
    assert ([e] + es)[1..] == es;
  }

  lemma EntriesOfText(config: map<string, string>, secrets: map<string, string>)
    requires Clean(config) && Clean(secrets)
    ensures Parse(Text(config, secrets)) ==
            Entries("config", SortedKeys(config.Keys), config) + Entries("secret", SortedKeys(secrets.Keys), secrets)
  {
    hide Line, Lines, Entries, SortedKeys;
    var ck, sk := SortedKeys(config.Keys), SortedKeys(secrets.Keys);
    ParseLines("secret", sk, secrets, "");
    assert Lines("secret", sk, secrets) + "" == Lines("secret", sk, secrets);
    ParseLines("config", ck, config, Section("secret", secrets));
    assert Entries("secret", sk, secrets) + [] == Entries("secret", sk, secrets);
  }

  /** Whatever text is parsed, the entries have keys without '=' or newline and values without newline. */
  lemma {:induction false} ParsedIsClean(text: string)
    ensures forall e :: e in Parse(text) ==> CleanEntry(e)
    decreases |text|
  {
    if text != "" {
      hide Cut, CleanEntry;
      var (line, rest) := Cut(text, '\n');
      var (tag, body) := Cut(line, ':');
      var (key, value) := Cut(body, '=');
      CutIsClean(text, '\n', '\n');
      CutIsClean(line, ':', '\n');
      CutIsClean(body, '=', '\n');
      CutIsClean(body, '=', '=');
      EntryIsClean(tag, key, value);
      ParsedIsClean(rest);
    }
  }

  predicate CleanEntry(e: Entry) { '=' !in e.key && '\n' !in e.key && '\n' !in e.value }

  lemma EntryIsClean(tag: string, key: string, value: string)
    requires '=' !in key && '\n' !in key && '\n' !in value
    ensures CleanEntry(Entry(tag, key, value))
  {
  }

  /** Cutting at c leaves no c before it, and brings in nothing that was not there. */
  lemma CutIsClean(s: string, c: char, d: char)
    ensures c !in Cut(s, c).0
    ensures d !in s ==> d !in Cut(s, c).0 && d !in Cut(s, c).1
  {
  }

  lemma {:induction false} RecoveredIsClean(es: seq<Entry>, tag: string)
    requires forall e :: e in es ==> CleanEntry(e)
    ensures Clean(ToMap(es, tag))
  {
    if es != [] {
      assert es[0] in es;
      RecoveredIsClean(es[1..], tag);
    }
  }

  /** The parser recovers both maps from the text exactly when no key has '=' or newline and no value a newline. */
  lemma ParseUndoesText(config: map<string, string>, secrets: map<string, string>)
    ensures ToMap(Parse(Text(config, secrets)), "config") == config && ToMap(Parse(Text(config, secrets)), "secret") == secrets
            <==> Clean(config) && Clean(secrets)
  {
    hide Parse, Text;
    ParsedIsClean(Text(config, secrets));
    RecoveredIsClean(Parse(Text(config, secrets)), "config");
    RecoveredIsClean(Parse(Text(config, secrets)), "secret");
    if Clean(config) && Clean(secrets) { CleanIsRecovered(config, secrets); }
  }

  lemma CleanIsRecovered(config: map<string, string>, secrets: map<string, string>)
    requires Clean(config) && Clean(secrets)
    ensures ToMap(Parse(Text(config, secrets)), "config") == config
    ensures ToMap(Parse(Text(config, secrets)), "secret") == secrets
  {
    hide Parse, Text, Entries, SortedKeys;
    EntriesOfText(config, secrets);
    var ck, sk := SortedKeys(config.Keys), SortedKeys(secrets.Keys);
    var es := Entries("secret", sk, secrets);
    assert es + [] == es;
    assert "config"[0] != "secret"[0];
    ToMapOfEntries("secret", sk, secrets, [], "secret");
    ToMapOfEntries("secret", sk, secrets, [], "config");
    ToMapOfEntries("config", ck, config, es, "config");
    ToMapOfEntries("config", ck, config, es, "secret");
    assert (map k | k in sk :: secrets[k]) == secrets;
    assert (map k | k in ck :: config[k]) == config;
  }

  lemma TextInjective(c1: map<string, string>, s1: map<string, string>, c2: map<string, string>, s2: map<string, string>)
    requires Clean(c1) && Clean(s1) && Clean(c2) && Clean(s2)
    ensures Text(c1, s1) == Text(c2, s2) <==> c1 == c2 && s1 == s2
  {
    ParseUndoesText(c1, s1);
    ParseUndoesText(c2, s2);
  }

  /** Without the condition two different configurations can share a text: a value may spell out another entry. */
  lemma TextCollision(a: string, b: string, x: string, y: string)
    requires LexLe(a, b) && a != b
    ensures Text(map[a := x + "\nconfig:" + b + "=" + y], map[]) == Text(map[a := x, b := y], map[])
  {
    var v := x + "\nconfig:" + b + "=" + y;
    var c1, c2 := map[a := v], map[a := x, b := y];
    hide Line, SortedKeys;
    SortedListingUnique(SortedKeys(c1.Keys), [a], c1.Keys);
    assert Lists([a, b], c2.Keys);
    SortedListingUnique(SortedKeys(c2.Keys), [a, b], c2.Keys);
    OneLine("config", a, v, c1);
    assert [a, b][1..] == [b];
    OneLine("config", b, y, c2);
    SpelledEntry(a, b, x, y);
  }

  lemma OneLine(tag: string, k: string, v: string, m: map<string, string>)
    requires k in m && m[k] == v
    ensures Lines(tag, [k], m) == Line(tag, k, v)
  {
    assert [k][1..] == [];
    assert Line(tag, k, v) + "" == Line(tag, k, v);
  }

  lemma SpelledEntry(a: string, b: string, x: string, y: string)
    ensures Line("config", a, x + "\nconfig:" + b + "=" + y) == Line("config", a, x) + Line("config", b, y)
  {
    assert "\nconfig:" == "\n" + "config" + ":";
  }

  // ----- ComputeConfigHash -----

  /** Some enumeration of the keys of a map: Go leaves the iteration order open. */
  method CollectKeys(m: map<string, string>) returns (keys: seq<string>)
    ensures Lists(keys, m.Keys)
  {
    keys := [];
    var rest := m.Keys;
    while rest != {}
      invariant rest <= m.Keys && Lists(keys, m.Keys - rest)
      decreases rest
    {
      var k :| k in rest;
      keys := keys + [k];
      rest := rest - {k};
    }
  }

  /** sort.Strings */
  method SortStrings(keys: seq<string>, ghost s: set<string>) returns (sorted: seq<string>)
    requires Lists(keys, s)
    ensures Lists(sorted, s) && Sorted(sorted)
  {
    sorted := [];
    for i := 0 to |keys|
      invariant Sorted(sorted)
      invariant Lists(sorted, set j | 0 <= j < i :: keys[j])
    {
      sorted := Insert(sorted, keys[i], set j | 0 <= j < i :: keys[j]);
      assert (set j | 0 <= j < i + 1 :: keys[j]) == (set j | 0 <= j < i :: keys[j]) + {keys[i]};
    }
    assert (set j | 0 <= j < |keys| :: keys[j]) == s;
  }

  method Insert(sorted: seq<string>, k: string, ghost s: set<string>) returns (r: seq<string>)
    requires Sorted(sorted) && Lists(sorted, s) && k !in s
    ensures Sorted(r) && Lists(r, s + {k})
  {
    var p := 0;
    while p < |sorted| && LexLe(sorted[p], k)
      invariant p <= |sorted|
      invariant forall i :: 0 <= i < p ==> LexLe(sorted[i], k)
    {
      p := p + 1;
    }
    r := sorted[..p] + [k] + sorted[p..];
    forall i | p <= i < |sorted| ensures LexLe(k, sorted[i]) {
      LexTotal(k, sorted[p]);
      if p < i { LexTransitive(k, sorted[p], sorted[i]); }
    }
    assert forall x :: x in r <==> x == k || x in sorted;
    assert forall x :: x in sorted ==> x in s;
  }

  method WriteSection(tag: string, m: map<string, string>, written: string) returns (text: string)
    ensures text == written + Section(tag, m)
  {
    var keys := CollectKeys(m);
    keys := SortStrings(keys, m.Keys);
    SortedListingUnique(keys, SortedKeys(m.Keys), m.Keys);
    hide Line, SortedKeys, LexLe;
    text := written;
    for i := 0 to |keys|
      invariant text + Lines(tag, keys[i..], m) == written + Lines(tag, keys, m)
    {
      assert keys[i..][0] == keys[i] && keys[i..][1..] == keys[i + 1..];
      Associate(text, Line(tag, keys[i], m[keys[i]]), Lines(tag, keys[i + 1..], m));
      text := text + Line(tag, keys[i], m[keys[i]]);
    }
    assert text + Lines(tag, keys[|keys|..], m) == text;
  }

  /** ComputeConfigHash without the digest: whatever order the maps are iterated in, the text is the same. */
  method ComputeConfigText(config: map<string, string>, secrets: map<string, string>) returns (text: string)
    ensures text == Text(config, secrets)
  {
    text := WriteSection("config", config, "");
    text := WriteSection("secret", secrets, text);
  }

  // ----- the three controllers -----

  /** The cluster controller's input: it stops before hashing unless the catalog secret was read. */
  function ClusterText(config: map<string, string>, secretName: string, secretVersion: string): string {
    Text(config, map[secretName := secretVersion])
  }

  /** The pool controllers' input: an unreadable secret is left out. */
  function PoolText(config: map<string, string>, secretName: string, secretVersion: Option<string>): string {
    Text(config, if secretVersion.Some? then map[secretName := secretVersion.value] else map[])
  }

  /** The controllers agree exactly when the pool controller could read the secret, and read the same version of it. */
  lemma ControllersAgree(config: map<string, string>, name: string, rv: string, poolRv: Option<string>)
    ensures PoolText(config, name, poolRv) == ClusterText(config, name, rv) <==> poolRv == Some(rv)
    ensures ClusterText(config, name, rv) != ""
  {
    hide Section;
    var c := Section("config", config);
    OneSecret(name, rv);
    if poolRv.Some? {
      OneSecret(name, poolRv.value);
      SameEnd(c, Line("secret", name, rv), Line("secret", name, poolRv.value));
      LineOfVersion(name, rv, poolRv.value);
    } else {
      NoSecret();
    }
  }

  lemma OneSecret(name: string, rv: string)
    ensures Section("secret", map[name := rv]) == Line("secret", name, rv) != ""
  {
    var m: map<string, string> := map[name := rv];
    assert Lists([name], m.Keys) && Sorted([name]);
    SortedListingUnique(SortedKeys(m.Keys), [name], m.Keys);
    OneLine("secret", name, rv, m);
  }

  lemma NoSecret()
    ensures Section("secret", map[]) == ""
  {
    var e: map<string, string> := map[];
    assert e.Keys == {};
    assert SortedKeys(e.Keys) == [];
  }

  lemma SameEnd(c: string, x: string, y: string)
    ensures c + x == c + y <==> x == y
  {
    if c + x == c + y { assert (c + x)[|c|..] == x && (c + y)[|c|..] == y; }
  }

  lemma LineOfVersion(name: string, v: string, w: string)
    ensures Line("secret", name, v) == Line("secret", name, w) <==> v == w
  {
    var head := "secret" + ":" + name + "=";
    if Line("secret", name, v) == Line("secret", name, w) {
      assert Line("secret", name, v) == head + (v + "\n") && Line("secret", name, w) == head + (w + "\n");
      SameEnd(head, v + "\n", w + "\n");
      assert (v + "\n")[..|v|] == v && (w + "\n")[..|w|] == w;
    }
  }
}
