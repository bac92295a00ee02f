/**
 Inference of the license variant from the running image's file name: the
 first tag, in a fixed priority order, that occurs anywhere in the name.
 */
module LicenseInference {
  import opened Optional
  import opened Strings

  /** The recognised license tags, highest priority first. */
  const LicensePriority: seq<string> := ["lanlite", "lanbase", "ipbase", "ipservices"]

  /** The priority chain over the image name; `None` when no tag occurs. */
  function InferLicense(image: string): (lic: Option<string>)
    ensures lic.None? <==>
              forall i :: 0 <= i < |LicensePriority| ==> !Contains(image, LicensePriority[i])
    ensures lic.Some? ==>
              exists i :: && 0 <= i < |LicensePriority|
                          && lic.value == LicensePriority[i]
                          && Contains(image, LicensePriority[i])
                          && forall j :: 0 <= j < i ==> !Contains(image, LicensePriority[j])
  {
    assert LicensePriority[0] == "lanlite" && LicensePriority[1] == "lanbase";
    assert LicensePriority[2] == "ipbase" && LicensePriority[3] == "ipservices";
    if Contains(image, "lanlite") then
      Some("lanlite")
    else if Contains(image, "lanbase") then
      Some("lanbase")
    else if Contains(image, "ipbase") then
      Some("ipbase")
    else if Contains(image, "ipservices") then
      Some("ipservices")
    else
      None
  }

  /** A tag found in the name shadows every lower-priority tag. */
  lemma PriorityRespected(image: string, i: nat, j: nat)
    requires i < j < |LicensePriority|
    requires Contains(image, LicensePriority[i])
    ensures InferLicense(image) != Some(LicensePriority[j])
    ensures InferLicense(image).Some?
  {
    var lic := InferLicense(image);
    var k :| && 0 <= k < |LicensePriority|
             && lic.value == LicensePriority[k]
             && Contains(image, LicensePriority[k])
             && forall m :: 0 <= m < k ==> !Contains(image, LicensePriority[m]);
    assert k <= i;
  }

  /** Converse of the priority chain: the first tag present is the one inferred. */
  lemma FirstPresentTagInferred(image: string, i: nat)
    requires i < |LicensePriority| && Contains(image, LicensePriority[i])
    requires forall j :: 0 <= j < i ==> !Contains(image, LicensePriority[j])
    ensures InferLicense(image) == Some(LicensePriority[i])
  {
    var lic := InferLicense(image);
    var k :| && 0 <= k < |LicensePriority|
             && lic.value == LicensePriority[k]
             && Contains(image, LicensePriority[k])
             && forall m :: 0 <= m < k ==> !Contains(image, LicensePriority[m]);
    assert k == i;
  }

  /** The empty default image name infers no license. */
  lemma EmptyImageHasNoLicense()
    ensures InferLicense("") == None
  {
  }
}
