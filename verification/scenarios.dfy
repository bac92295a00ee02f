/**
 Concrete runs of the resolver: example runs for the C9300, WS-C2960X,
 C2960 and C4500 families, and the edge cases of model normalisation.
 */
module Scenarios {
  import opened Optional
  import opened Strings
  import opened FirmwareTable
  import opened LicenseInference
  import opened Resolver
  import opened ResolverProperties

  /** A `C9300` already on its target reports no update needed. */
  lemma C9300Current()
    ensures Resolve("16.12.03a", "C9300", "") ==
              Emitted(Success(false, CurrentMsg, "16.12.03a", "cat9k_iosxe.16.12.03a.SPA.bin"))
  {
    TableKeyIsModelKey("C9300");
  }

  /** A `C9300` keeps its only image even when the image name carries a license tag. */
  lemma C9300IgnoresLicense(image: string)
    requires Contains(image, "ipbase")
    ensures Resolve("16.12.03a", "C9300", image) ==
              Emitted(Success(false, CurrentMsg, "16.12.03a", "cat9k_iosxe.16.12.03a.SPA.bin"))
  {
    TableKeyIsModelKey("C9300");
    SingleOptionIgnoresImage("16.12.03a", "C9300", image, "");
  }

  /** A `WS-`-prefixed SKU maps to its family and asks for an update. */
  lemma PrefixedC2960XNeedsUpdate()
    ensures Resolve("15.0(1)SE", "WS-C2960X-24TS-L", "") ==
              Emitted(Success(true, MappedMsg, "15.2(7)E2", "c2960x-universalk9-mz.152-7.E2.bin"))
  {
    var model := "WS-C2960X-24TS-L";
    assert model[3..] == "C2960X" + "-" + "24TS-L";
    KeyOfPrefixedModel(model, "C2960X");
  }

  /** A `C2960` running the `lanlite` target image is current. */
  lemma C2960LanliteCurrent()
    ensures Resolve("15.0(2)SE11", "C2960", "c2960-lanlitek9-mz.150-2.SE11.bin") ==
              Emitted(Success(false, CurrentMsg, "15.0(2)SE11", "c2960-lanlitek9-mz.150-2.SE11.bin"))
  {
    TableImagesAreCurrent("C2960", 1);
  }

  /** Version comparison is exact: a dotted spelling of the same release still asks for an update. */
  lemma C2960DottedVersionNeedsUpdate()
    ensures Resolve("15.0.2.SE11", "C2960", "c2960-lanlitek9-mz.150-2.SE11.bin") ==
              Emitted(Success(true, MappedMsg, "15.0(2)SE11", "c2960-lanlitek9-mz.150-2.SE11.bin"))
  {
    OtherVersionRequiresUpdate("C2960", 1, "15.0.2.SE11");
  }

  /** A `C2960` with no license hint cannot be disambiguated. */
  lemma C2960WithoutHintFails()
    ensures Resolve("15.0(2)SE11", "C2960", "") == Emitted(Failure(UnmappedMsg))
  {
    TableKeyIsModelKey("C2960");
    EmptyImageHasNoLicense();
    MultiOptionWithoutLicenseFails("15.0(2)SE11", "C2960", "");
  }

  /** A family missing from the table fails. */
  lemma UnknownC4500Fails()
    ensures Resolve("1.0", "C4500", "") == Emitted(Failure(UnmappedMsg))
  {
    KeyOfPlainModel("C4500", "C4500");
    UnknownFamilyFails("1.0", "C4500", "");
  }

  /** The bare model `"WS"` leaves nothing to look up: the run stops with an index error. */
  lemma BareWsCrashes(version: string, image: string)
    ensures Resolve(version, "WS", image) == IndexError
  {
  }

  /** `"WS-"` normalises to the empty key, an ordinary unknown family. */
  lemma WsDashIsUnknown(version: string, image: string)
    ensures Resolve(version, "WS-", image) == Emitted(Failure(UnmappedMsg))
  {
    KeyOfPrefixedModel("WS-", "");
  }

  /** Only an exact `"WS"` segment is dropped: `"WSC2960"` is looked up as it stands. */
  lemma WsMustBeWholeSegment(version: string, model: string, image: string)
    requires model == "WSC2960-24"
    ensures ModelKey(model) == Some("WSC2960")
    ensures Resolve(version, model, image) == Emitted(Failure(UnmappedMsg))
  {
    assert model == "WSC2960" + "-" + "24";
    KeyOfPlainModel(model, "WSC2960");
  }
}
