/** The driver's two string codecs: node IDs and the label flag. */
module Codecs {
  import opened Base
  import opened Filters

  /** strings.Split by one separator character. */
  function Split(s: string, sep: char): (parts: seq<string>)
    ensures |parts| >= 1
  {
    if s == "" then [""]
    else
      var rest := Split(s[1..], sep);
      if s[0] == sep then [""] + rest else [[s[0]] + rest[0]] + rest[1..]
  }

  function Join(parts: seq<string>, sep: char): string
    requires |parts| >= 1
  {
    if |parts| == 1 then parts[0] else parts[0] + [sep] + Join(parts[1..], sep)
  }

  lemma {:induction false} SplitPlain(s: string, sep: char)
    requires sep !in s
    ensures Split(s, sep) == [s]
  {
    if s != "" {
      SplitPlain(s[1..], sep);
      assert [s[0]] + s[1..] == s;
    }
  }

  lemma {:induction false} SplitAt(head: string, tail: string, sep: char)
    requires sep !in head
    ensures Split(head + [sep] + tail, sep) == [head] + Split(tail, sep)
  {
    var s := head + [sep] + tail;
    if head == "" {
      assert s == [sep] + tail;
    } else {
      SplitAt(head[1..], tail, sep);
      assert s[1..] == head[1..] + [sep] + tail && s[0] == head[0];
      assert [head[0]] + head[1..] == head;
    }
  }

  lemma {:induction false} SplitOfJoin(parts: seq<string>, sep: char)
    requires |parts| >= 1 && forall p :: p in parts ==> sep !in p
    ensures Split(Join(parts, sep), sep) == parts
  {
    if |parts| == 1 {
      SplitPlain(parts[0], sep);
    } else {
      SplitOfJoin(parts[1..], sep);
      SplitAt(parts[0], Join(parts[1..], sep), sep);
    }
  }

  lemma JoinHead(head: string, parts: seq<string>, sep: char)
    requires |parts| >= 1
    ensures Join([head + parts[0]] + parts[1..], sep) == head + Join(parts, sep)
    ensures Join([head] + parts, sep) == head + [sep] + Join(parts, sep)
  {
    assert ([head] + parts)[1..] == parts;
    assert ([head + parts[0]] + parts[1..])[1..] == parts[1..];
    if |parts| > 1 {
      var tail := Join(parts[1..], sep);
      assert head + parts[0] + [sep] + tail == head + (parts[0] + [sep] + tail);
    }
  }

  lemma {:induction false} JoinOfSplit(s: string, sep: char)
    ensures Join(Split(s, sep), sep) == s
  {
    if s != "" {
      JoinOfSplit(s[1..], sep);
      var rest := Split(s[1..], sep);
      hide Join;
      JoinHead(if s[0] == sep then "" else [s[0]], rest, sep);
      assert s == [s[0]] + s[1..] == "" + [s[0]] + s[1..];
    }
  }

  // ----- Node IDs -----

  /** cache.SplitMetaNamespaceKey. */
  function SplitKey(key: string): Result<(string, string)> {
    var parts := Split(key, '/');
    if |parts| == 1 then Ok(("", parts[0]))
    else if |parts| == 2 then Ok((parts[0], parts[1]))
    else Err(Other)
  }

  /** Every key is one way joined from pieces without a slash, and the number of pieces
      decides: one is a name, two a namespace and a name, more are an error. */
  lemma SplitKeyOfPieces(key: string) returns (parts: seq<string>)
    ensures |parts| >= 1 && Join(parts, '/') == key && forall p :: p in parts ==> '/' !in p
    ensures SplitKey(key) == if |parts| == 1 then Ok(("", parts[0]))
                             else if |parts| == 2 then Ok((parts[0], parts[1])) else Err(Other)
  {
    parts := Split(key, '/');
    JoinOfSplit(key, '/');
    SplitPiecesPlain(key, '/');
  }

  const KUBEVIRT_SCHEME := "kubevirt://"
  const NAMESPACE_ANNOTATION := "cluster.x-k8s.io/cluster-namespace"
  const VM_NAME_ANNOTATION := "csi.kubevirt.io/infra-vm-name"
  const VM_NAMESPACE_ANNOTATION := "csi.kubevirt.io/infra-vm-namespace"

  /** The VM name and namespace a node carries; missing annotations read as empty. */
  function NodeVm(providerId: string, annotations: map<string, string>): (string, string) {
    if KUBEVIRT_SCHEME <= providerId then
      (Lookup(annotations, NAMESPACE_ANNOTATION), providerId[|KUBEVIRT_SCHEME|..])
    else
      (Lookup(annotations, VM_NAMESPACE_ANNOTATION), Lookup(annotations, VM_NAME_ANNOTATION))
  }

  function ResolveNodeId(providerId: string, annotations: map<string, string>): Result<string> {
    var (ns, name) := NodeVm(providerId, annotations);
    if name == "" || ns == "" then Err(Other) else Ok(ns + "/" + name)
  }

  /** Where the two halves of a node ID come from: a KubeVirt provider ID and the cluster's
      namespace, or the two annotations that name the VM. */
  lemma NodeIdOf(vm: string, other: string, annotations: map<string, string>)
    requires !("kubevirt://" <= other)
    ensures var ns := Lookup(annotations, "cluster.x-k8s.io/cluster-namespace");
            ResolveNodeId("kubevirt://" + vm, annotations)
              == if vm == "" || ns == "" then Err(Other) else Ok(ns + "/" + vm)
    ensures var ns, name := Lookup(annotations, "csi.kubevirt.io/infra-vm-namespace"),
                            Lookup(annotations, "csi.kubevirt.io/infra-vm-name");
            ResolveNodeId(other, annotations) == if name == "" || ns == "" then Err(Other) else Ok(ns + "/" + name)
  {
    assert ("kubevirt://" + vm)[|KUBEVIRT_SCHEME|..] == vm;
  }

  /** Exactly the node IDs built from slash-free names split back to what they were built
      from. */
  lemma NodeIdRoundTrip(providerId: string, annotations: map<string, string>)
    requires ResolveNodeId(providerId, annotations).Ok?
    ensures var (ns, name) := NodeVm(providerId, annotations);
            var id := ResolveNodeId(providerId, annotations).value;
            && ns != "" && name != ""
            && (SplitKey(id) == Ok((ns, name)) <==> '/' !in ns && '/' !in name)
  {
    var (ns, name) := NodeVm(providerId, annotations);
    var id := ns + "/" + name;
    if '/' !in ns {
      SplitAt(ns, name, '/');
      if '/' !in name {
        SplitPlain(name, '/');
      } else {
        SplitPiecesPlain(name, '/');
      }
    } else {
      SplitPiecesPlain(id, '/');
    }
  }

  /** No piece of a split contains the separator. */
  lemma {:induction false} SplitPiecesPlain(s: string, sep: char)
    ensures forall p :: p in Split(s, sep) ==> sep !in p
    ensures sep in s ==> |Split(s, sep)| >= 2
  {
    if s != "" {
      SplitPiecesPlain(s[1..], sep);
    }
  }

  // ----- Labels -----

  /** strings.SplitN(s, "=", 2). */
  function SplitPair(s: string): Option<(string, string)> {
    if s == "" then None
    else if s[0] == '=' then Some(("", s[1..]))
    else match SplitPair(s[1..])
      case None => None
      case Some((k, v)) => Some(([s[0]] + k, v))
  }

  lemma {:induction false} SplitPairAt(k: string, v: string)
    requires '=' !in k
    ensures SplitPair(k + "=" + v) == Some((k, v))
  {
    var s := k + "=" + v;
    if k == "" {
      assert s[1..] == v;
    } else {
      SplitPairAt(k[1..], v);
      assert s[1..] == k[1..] + "=" + v && s[0] == k[0];
      assert [k[0]] + k[1..] == k;
    }
  }

  lemma {:induction false} SplitPairSound(s: string)
    ensures SplitPair(s).Some? <==> '=' in s
    ensures match SplitPair(s) case None => true case Some((k, v)) => '=' !in k && s == k + "=" + v
  {
    if s != "" && s[0] != '=' {
      SplitPairSound(s[1..]);
    }
  }

  /** Later pairs win. */
  function LastWins(pairs: seq<(string, string)>): map<string, string> {
    if pairs == [] then map[]
    else
      var last := pairs[|pairs| - 1];
      LastWins(pairs[..|pairs| - 1])[last.0 := last.1]
  }

  /** A key's value is that of its last pair. */
  lemma {:induction false} LastWinsIs(pairs: seq<(string, string)>, i: nat)
    requires i < |pairs| && forall j :: i < j < |pairs| ==> pairs[j].0 != pairs[i].0
    ensures pairs[i].0 in LastWins(pairs) && LastWins(pairs)[pairs[i].0] == pairs[i].1
  {
    if i < |pairs| - 1 {
      LastWinsIs(pairs[..|pairs| - 1], i);
    }
  }

  lemma {:induction false} LastWinsKeys(pairs: seq<(string, string)>, k: string)
    ensures k in LastWins(pairs) <==> exists p :: p in pairs && p.0 == k
  {
    if pairs != [] {
      assert pairs == pairs[..|pairs| - 1] + [pairs[|pairs| - 1]];
      LastWinsKeys(pairs[..|pairs| - 1], k);
    }
  }

  function PairsText(pairs: seq<(string, string)>): (parts: seq<string>)
    ensures |parts| == |pairs| && forall i :: 0 <= i < |pairs| ==> parts[i] == pairs[i].0 + "=" + pairs[i].1
  {
    seq(|pairs|, i requires 0 <= i < |pairs| => pairs[i].0 + "=" + pairs[i].1)
  }

  /** Parsing succeeds exactly when the flag is set and every comma-separated field has an
      '=', and then gives the last-wins map of the fields cut at their first '='. */
  method ParseLabels(flag: string) returns (r: Result<map<string, string>>, ghost pairs: seq<(string, string)>)
    ensures r.Ok? <==> flag != "" && forall p :: p in Split(flag, ',') ==> '=' in p
    ensures r.Ok? ==> r.value == LastWins(pairs) && PairsText(pairs) == Split(flag, ',')
    ensures r.Ok? ==> forall p :: p in pairs ==> '=' !in p.0
  {
    pairs := [];
    if flag == "" {
      return Err(Other), pairs;
    }
    var labels := map[];
    var fields := Split(flag, ',');
    for i := 0 to |fields|
      invariant |pairs| == i && labels == LastWins(pairs)
      invariant forall j :: 0 <= j < i ==>
                  '=' in fields[j] && '=' !in pairs[j].0 && fields[j] == pairs[j].0 + "=" + pairs[j].1
    {
      SplitPairSound(fields[i]);
      var pair := SplitPair(fields[i]);
      if pair.None? {
        return Err(Other), pairs;
      }
      labels := labels[pair.value.0 := pair.value.1];
      assert (pairs + [pair.value])[..i] == pairs;
      pairs := pairs + [pair.value];
    }
    r := Ok(labels);
  }

  /** A printed flag is set, splits back into its fields, and every field has an '='. */
  lemma PrintedFlag(pairs: seq<(string, string)>)
    requires |pairs| >= 1
    requires forall p :: p in pairs ==> '=' !in p.0 && ',' !in p.0 && ',' !in p.1
    ensures var flag := Join(PairsText(pairs), ',');
            flag != "" && Split(flag, ',') == PairsText(pairs) && forall p :: p in Split(flag, ',') ==> '=' in p
  {
    var parts := PairsText(pairs);
    forall p | p in parts ensures ',' !in p && '=' in p {
      var i :| 0 <= i < |parts| && parts[i] == p;
      assert pairs[i] in pairs && p == pairs[i].0 + "=" + pairs[i].1;
      assert p[|pairs[i].0|] == '=';
    }
    SplitOfJoin(parts, ',');
    assert parts[0] in parts;
  }

  /** Fields with '='-free keys determine their pairs. */
  lemma FieldsDeterminePairs(a: seq<(string, string)>, b: seq<(string, string)>)
    requires PairsText(a) == PairsText(b)
    requires forall p :: p in a + b ==> '=' !in p.0
    ensures a == b
  {
    forall i | 0 <= i < |a| ensures a[i] == b[i] {
      assert a[i] in a + b && b[i] in a + b;
      assert PairsText(a)[i] == PairsText(b)[i];
      SplitPairAt(a[i].0, a[i].1);
      SplitPairAt(b[i].0, b[i].1);
    }
  }

  /** LABEL ROUND TRIP, values with '=' included. */
  method ParsePrinted(pairs: seq<(string, string)>) returns (r: Result<map<string, string>>)
    requires |pairs| >= 1
    requires forall p :: p in pairs ==> '=' !in p.0 && ',' !in p.0 && ',' !in p.1
    ensures r == Ok(LastWins(pairs))
    ensures r.Ok? && forall k :: k in r.value <==> exists p :: p in pairs && p.0 == k
    ensures forall i :: 0 <= i < |pairs| && (forall j :: i < j < |pairs| ==> pairs[j].0 != pairs[i].0) ==>
              pairs[i].0 in r.value && r.value[pairs[i].0] == pairs[i].1
  {
    forall k ensures k in LastWins(pairs) <==> exists p :: p in pairs && p.0 == k { LastWinsKeys(pairs, k); }
    forall i | 0 <= i < |pairs| && (forall j :: i < j < |pairs| ==> pairs[j].0 != pairs[i].0)
      ensures pairs[i].0 in LastWins(pairs) && LastWins(pairs)[pairs[i].0] == pairs[i].1
    {
      LastWinsIs(pairs, i);
    }
    PrintedFlag(pairs);
    ghost var cut;
    r, cut := ParseLabels(Join(PairsText(pairs), ','));
    FieldsDeterminePairs(cut, pairs);
  }
}
