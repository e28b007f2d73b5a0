/** Which infra objects belong to this driver: the label and prefix filters of the client. */
module Filters {

  /** The client's configuration; `prefix` is the volume prefix with its dash. */
  datatype Config = Config(labels: map<string, string>, prefix: string, enforcement: Enforcement)

  datatype Enforcement = Enforcement(allowList: seq<string>, allowAll: bool, allowDefault: bool, groups: seq<Group>)

  /** One group of storageSnapshotMapping. */
  datatype Group = Group(snapshotClasses: seq<string>, storageClasses: seq<string>)

  /** Go map indexing: a missing key reads as the empty string. */
  function Lookup(m: map<string, string>, k: string): string {
    if k in m then m[k] else ""
  }

  ghost predicate Matches(a: map<string, string>, b: map<string, string>) {
    forall k :: k in b ==> Lookup(a, k) == b[k]
  }

  /** An equality label selector also wants the key to be there. */
  predicate Selects(b: map<string, string>, a: map<string, string>) {
    forall k :: k in b ==> k in a && a[k] == b[k]
  }

  ghost predicate Owned(cfg: Config, name: string, labels: map<string, string>) {
    Matches(labels, cfg.labels) && cfg.prefix <= name
  }

  method ContainsLabels(a: map<string, string>, b: map<string, string>) returns (r: bool)
    ensures r <==> Matches(a, b)
  {
    var keys := b.Keys;
    while keys != {}
      invariant keys <= b.Keys
      invariant forall k :: k in b && k !in keys ==> Lookup(a, k) == b[k]
      decreases keys
    {
      var k :| k in keys;
      if Lookup(a, k) != b[k] {
        return false;
      }
      keys := keys - {k};
    }
    return true;
  }

  /** What the list filter lets through, the get filter lets through. */
  lemma SelectedMatches(a: map<string, string>, b: map<string, string>)
    requires Selects(b, a)
    ensures Matches(a, b)
  {
  }

  /** The two filters agree on every object exactly when no configured value is empty. */
  lemma FiltersAgree(b: map<string, string>)
    ensures (forall a :: Matches(a, b) <==> Selects(b, a)) <==> (forall k :: k in b ==> b[k] != "")
  {
    if k :| k in b && b[k] == "" {
      var a := b - {k};
      assert k !in a && k in b;
      assert Matches(a, b) && !Selects(b, a);
    }
  }
}
