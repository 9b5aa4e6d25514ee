/** cloud/scope/helpers.go: the providerID of a Vultr resource, `vultr://<id>`. */
module ProviderID {
  import opened Strings

  const SCHEME := "vultr"
  const SEPARATOR := "://"

  function ToResourceID(providerID: string): string {
    var split := Split(providerID, SEPARATOR);
    if |split| != 2 then ""
    else if split[0] != SCHEME then ""
    else split[1]
  }

  function FromResourceID(id: string): string {
    SCHEME + SEPARATOR + id
  }

  /** The scheme holds no separator, so the first split of a built providerID is right after it. */
  lemma SplitOfBuilt(id: string)
    ensures Split(FromResourceID(id), SEPARATOR) == [SCHEME] + Split(id, SEPARATOR)
  {
    var p := FromResourceID(id);
    assert OccursAt(p, SEPARATOR, 5);
    forall j: nat | j < 5 ensures !OccursAt(p, SEPARATOR, j) {
      assert p[j..j + 3][0] == SCHEME[j];
    }
    assert Index(p, SEPARATOR) == 5;
    assert p[..5] == SCHEME;
    assert p[8..] == id;
  }

  /** The round trip is exact: it gives the id back if and only if the id holds no "://". */
  lemma RoundTrip(id: string)
    ensures ToResourceID(FromResourceID(id)) == id <==> !Contains(id, SEPARATOR)
    ensures Contains(id, SEPARATOR) ==> ToResourceID(FromResourceID(id)) == ""
  {
    SplitOfBuilt(id);
    if Contains(id, SEPARATOR) {
      var i: nat :| OccursAt(id, SEPARATOR, i);
      assert id != "";
    }
  }

  /** Parsing yields an id exactly for the providerIDs that building yields for well-formed ids. */
  lemma ParsedIsBuilt(providerID: string)
    ensures ToResourceID(providerID) != "" <==>
            exists id :: id != "" && !Contains(id, SEPARATOR) && providerID == FromResourceID(id)
    ensures ToResourceID(providerID) != "" ==> providerID == FromResourceID(ToResourceID(providerID))
  {
    var id := ToResourceID(providerID);
    if id != "" {
      var i := Index(providerID, SEPARATOR);
      var split := Split(providerID, SEPARATOR);
      assert split[1..] == Split(providerID[i + 3..], SEPARATOR);
      assert providerID[i + 3..] == id;
      assert providerID == providerID[..i] + providerID[i..i + 3] + providerID[i + 3..];
    }
    forall id' | id' != "" && !Contains(id', SEPARATOR) && providerID == FromResourceID(id')
      ensures id != ""
    {
      RoundTrip(id');
    }
  }
}
