/** The names of security groups in the cloud. */
module GroupNames {
  const ADDRESS_GROUP_PREFIX := "nephe-ag-"
  const APPLIED_TO_PREFIX := "nephe-at-"

  function LowerChar(c: char): char {
    if 'A' <= c <= 'Z' then (c as int + 32) as char else c
  }

  function Lower(s: string): (r: string)
    ensures |r| == |s| && forall i :: 0 <= i < |s| ==> r[i] == LowerChar(s[i])
  {
    if s == "" then "" else [LowerChar(s[0])] + Lower(s[1..])
  }

  /** CloudResourceID.GetCloudName. */
  function CloudName(name: string, membershipOnly: bool): string {
    (if membershipOnly then ADDRESS_GROUP_PREFIX else APPLIED_TO_PREFIX) + Lower(name)
  }

  function TrimPrefix(s: string, prefix: string): string {
    if prefix <= s then s[|prefix|..] else s
  }

  /** IsNepheControllerCreatedSG: the group's name, and whether it is an address group or an appliedTo group. */
  function Classify(cloudName: string): (string, bool, bool) {
    var suffix := TrimPrefix(cloudName, ADDRESS_GROUP_PREFIX);
    if |suffix| < |cloudName| then (Lower(suffix), true, false)
    else
      var suffix := TrimPrefix(cloudName, APPLIED_TO_PREFIX);
      if |suffix| < |cloudName| then (Lower(suffix), false, true) else ("", false, false)
  }

  /** Classification undoes naming, up to letter case. */
  lemma ClassifyUndoesNaming(name: string, membershipOnly: bool)
    ensures Classify(CloudName(name, membershipOnly)) == (Lower(name), membershipOnly, !membershipOnly)
  {
    var prefix := if membershipOnly then ADDRESS_GROUP_PREFIX else APPLIED_TO_PREFIX;
    var cloudName := CloudName(name, membershipOnly);
    assert prefix <= cloudName && cloudName[|prefix|..] == Lower(name);
    assert Lower(Lower(name)) == Lower(name);
    if !membershipOnly {
      assert ADDRESS_GROUP_PREFIX[6] == 'a' && cloudName[7] == 't' && ADDRESS_GROUP_PREFIX[7] == 'g';
      assert !(ADDRESS_GROUP_PREFIX <= cloudName);
    }
  }
}
