/**
 The static model-family table: for each normalised model key, the ordered
 list of firmware images a device of that family should run.
 */
module FirmwareTable {
  import opened Optional

  /** One candidate firmware artifact; `license` is `None` for unlicensed lines. */
  datatype FirmwareOption = FirmwareOption(image: string, version: string, license: Option<string>)

  /** The table, family key to options in table order. */
  const ModelMap: map<string, seq<FirmwareOption>> := map[
    "C9300" := [
      FirmwareOption("cat9k_iosxe.16.12.03a.SPA.bin", "16.12.03a", None)
    ],
    "C2960X" := [
      FirmwareOption("c2960x-universalk9-mz.152-7.E2.bin", "15.2(7)E2", None)
    ],
    "C3560CX" := [
      FirmwareOption("c3560cx-universalk9-mz.152-7.E2.bin", "15.2(7)E2", None)
    ],
    "C2960" := [
      FirmwareOption("c2960-lanbasek9-mz.150-2.SE11.bin", "15.0(2)SE11", Some("lanbase")),
      FirmwareOption("c2960-lanlitek9-mz.150-2.SE11.bin", "15.0(2)SE11", Some("lanlite"))
    ],
    "C3560" := [
      FirmwareOption("c3560-ipbasek9-mz.150-2.SE11.bin", "15.0(2)SE11", Some("ipbase")),
      FirmwareOption("c3560-ipservicesk9-mz.150-2.SE11", "15.0(2)SE11", Some("ipservices"))
    ],
    "C3560C" := [
      FirmwareOption("c3560-ipbasek9-mz.150-2.SE11.bin", "15.0(2)SE11", Some("ipbase")),
      FirmwareOption("c3560-ipservicesk9-mz.150-2.SE11", "15.0(2)SE11", Some("ipservices"))
    ],
    "C3750" := [
      FirmwareOption("c3750-ipbasek9-mz.150-2.SE11.bin", "15.0(2)SE11", Some("ipbase")),
      FirmwareOption("c3750-ipservicesk9-mz.150-2.SE11", "15.0(2)SE11", Some("ipservices"))
    ]
  ]

  /**
   The shape the resolver relies on: at least one option, and in a family
   with several options every option carries its own distinct license.
   */
  predicate FamilyWellFormed(options: seq<FirmwareOption>) {
    && |options| >= 1
    && (|options| > 1 ==>
          && (forall i :: 0 <= i < |options| ==> options[i].license.Some?)
          && (forall i, j :: 0 <= i < j < |options| ==> options[i].license != options[j].license))
  }

  /** The table invariant, checked over the constant. */
  lemma ModelMapWellFormed(key: string)
    requires key in ModelMap
    ensures FamilyWellFormed(ModelMap[key])
  {
  }
}
