/** The identity scheme of a VNF instance: the internal VNF ID built from the
    request's cloud region, namespace and generated external ID, the internal
    name of each resource, and the "|"-joined record of the single-resource
    variant together with the splits that read it back. */
module Naming {
  import opened Common

  /** `cloudRegionID + "-" + namespace + "-" + externalVNFID`, the prefix of
      every cluster name of one instance. */
  function InternalVNFID(cloudRegionID: string, namespace: string, externalVNFID: string): string {
    cloudRegionID + "-" + namespace + "-" + externalVNFID
  }

  /** The cluster name of a resource declared as `declaredName`. */
  function InternalName(internalVNFID: string, declaredName: string): string {
    internalVNFID + "-" + declaredName
  }

  /** The directory value of the single-resource variant. */
  function CombinedID(deployName: string, serviceName: string): string {
    deployName + "|" + serviceName
  }

  /** `strings.Split(v, "|")[0]` and `[1]`; Go's indexing needs a second piece. */
  function SplitCombined(v: string): (names: (string, string))
    requires '|' in v
  {
    ContainsChar(v, '|');
    var pieces := Split(v, "|");
    (pieces[0], pieces[1])
  }

  /** The combined value reads back as the two names it was built from. */
  lemma CombinedRoundTrip(deployName: string, serviceName: string)
    requires '|' !in deployName && '|' !in serviceName
    ensures '|' in CombinedID(deployName, serviceName)
    ensures SplitCombined(CombinedID(deployName, serviceName)) == (deployName, serviceName)
  {
    var v := CombinedID(deployName, serviceName);
    assert v[|deployName|] == '|';
    IndexOfCharAfter(deployName, '|', serviceName);
    assert v[..|deployName|] == deployName;
    assert v[|deployName| + 1..] == serviceName;
    ContainsChar(serviceName, '|');
    SplitAbsent(serviceName, "|");
  }

  /** Go's `strings.Split(name, internalVNFID)[1][1:]` does not panic. */
  predicate Recoverable(name: string, internalVNFID: string) {
    |internalVNFID| > 0 && |Split(name, internalVNFID)| >= 2 && |Split(name, internalVNFID)[1]| >= 1
  }

  /** The declared name Get reports for a stored cluster name. */
  function DeclaredName(name: string, internalVNFID: string): string
    requires Recoverable(name, internalVNFID)
  {
    Split(name, internalVNFID)[1][1..]
  }

  /** An internal name gives back its declared name, as long as the ID does
      not reoccur in the text after it. */
  lemma DeclaredNameRoundTrip(internalVNFID: string, declaredName: string)
    requires |internalVNFID| > 0 && !Contains("-" + declaredName, internalVNFID)
    ensures Recoverable(InternalName(internalVNFID, declaredName), internalVNFID)
    ensures DeclaredName(InternalName(internalVNFID, declaredName), internalVNFID) == declaredName
  {
    var rest := "-" + declaredName;
    assert InternalName(internalVNFID, declaredName) == internalVNFID + rest;
    SplitLeading(internalVNFID, rest);
    SplitAbsent(rest, internalVNFID);
  }

  /** The side condition above follows from the declared name alone when the
      ID cannot start at the dash, i.e. it does not itself start with "-". */
  lemma {:induction false} DashThenName(internalVNFID: string, declaredName: string)
    requires |internalVNFID| > 0 && internalVNFID[0] != '-'
    requires !Contains(declaredName, internalVNFID)
    ensures !Contains("-" + declaredName, internalVNFID)
  {
    assert ("-" + declaredName)[1..] == declaredName;
    assert !(internalVNFID <= "-" + declaredName) by {
      assert ("-" + declaredName)[0] == '-';
    }
  }

  /** Distinct requests give distinct internal VNF IDs, provided the region
      and the namespace hold no "-" (the UUID may). */
  lemma InternalVNFIDInjective(c1: string, n1: string, e1: string, c2: string, n2: string, e2: string)
    requires '-' !in c1 && '-' !in c2 && '-' !in n1 && '-' !in n2
    requires InternalVNFID(c1, n1, e1) == InternalVNFID(c2, n2, e2)
    ensures c1 == c2 && n1 == n2 && e1 == e2
  {
    assert InternalVNFID(c1, n1, e1) == c1 + ['-'] + (n1 + ['-'] + e1);
    assert InternalVNFID(c2, n2, e2) == c2 + ['-'] + (n2 + ['-'] + e2);
    JoinInjective('-', c1, n1 + ['-'] + e1, c2, n2 + ['-'] + e2);
    JoinInjective('-', n1, e1, n2, e2);
  }

  /** Within one instance, distinct declared names give distinct cluster names. */
  lemma InternalNameInjective(internalVNFID: string, d1: string, d2: string)
    requires InternalName(internalVNFID, d1) == InternalName(internalVNFID, d2)
    ensures d1 == d2
  {
    var p := internalVNFID + "-";
    assert d1 == InternalName(internalVNFID, d1)[|p|..];
    assert d2 == InternalName(internalVNFID, d2)[|p|..];
  }
}
