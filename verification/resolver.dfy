/**
 The firmware resolver: license inference, model normalisation, table
 lookup, license disambiguation and version comparison, producing the one
 result object a run emits.
 */
module Resolver {
  import opened Optional
  import opened Strings
  import opened FirmwareTable
  import opened LicenseInference

  const UnmappedMsg: string := "Unable to map model to a target firmware version"
  const CurrentMsg: string := "Currently running target firmware version"
  const MappedMsg: string := "Successfully mapped model to target firmware version"

  /**
   The emitted object. `Failure` carries only `success=false` and `msg`;
   `Success` carries `success=true` and the four remaining fields.
   */
  datatype ResolutionResult =
    | Failure(msg: string)
    | Success(updateRequired: bool, msg: string, targetOs: string, targetFile: string)

  /**
   One run of the program: either it emits a result, or it stops with an
   `IndexError` because model normalisation left no segment to look up.
   */
  datatype Outcome = Emitted(result: ResolutionResult) | IndexError

  /**
   The facts about the `-`-split of a model that normalisation relies on:
   the head is the first segment, the split is just `["WS"]` only for the
   model `"WS"`, and after a leading `"WS-"` the second element is the first
   segment of the remainder.
   */
  lemma ModelSegments(model: string)
    ensures FirstSegmentIs(model, Split(model, '-')[0], '-')
    ensures (Split(model, '-')[0] == "WS" && |Split(model, '-')| == 1) <==> model == "WS"
    ensures Split(model, '-')[0] == "WS" && |Split(model, '-')| > 1 ==>
              && |model| >= 3 && model[..3] == "WS-"
              && FirstSegmentIs(model[3..], Split(model, '-')[1], '-')
  {
    var segments := Split(model, '-');
    JoinFirstSegment(segments, '-');
    SplitOfSegment("WS", '-');
    if segments[0] == "WS" && |segments| > 1 {
      var rest := segments[1..];
      assert segments == [segments[0]] + rest;
      assert model == "WS" + "-" + Join(rest, '-');
      assert model[3..] == Join(rest, '-');
      JoinFirstSegment(rest, '-');
    }
  }

  /**
   The family key after splitting on `-` and dropping one leading `"WS"`.
   It is absent only for the bare model `"WS"`; otherwise it is the first
   segment when that segment is not `"WS"`, and the first segment after a
   leading `"WS-"` when it is.
   */
  function ModelKey(model: string): (key: Option<string>)
    ensures key.None? <==> model == "WS"
    ensures key.Some? ==>
              || (FirstSegmentIs(model, key.value, '-') && key.value != "WS")
              || (&& |model| >= 3 && model[..3] == "WS-"
                  && FirstSegmentIs(model[3..], key.value, '-'))
  {
    var segments := Split(model, '-');
    var rest := if segments[0] == "WS" then segments[1..] else segments;
    ModelSegments(model);
    if |rest| == 0 then None else Some(rest[0])
  }

  /** Converse of normalisation: a first segment other than `"WS"` is the key. */
  lemma KeyOfPlainModel(model: string, k: string)
    requires FirstSegmentIs(model, k, '-') && k != "WS"
    ensures ModelKey(model) == Some(k)
  {
    SplitHead(model, k, '-');
  }

  /** Converse of normalisation: after a leading `"WS-"`, the next segment is the key. */
  lemma KeyOfPrefixedModel(model: string, k: string)
    requires |model| >= 3 && model[..3] == "WS-"
    requires FirstSegmentIs(model[3..], k, '-')
    ensures ModelKey(model) == Some(k)
  {
    var t := model[3..];
    assert model == "WS" + ['-'] + t;
    SplitAtFirst("WS", t, '-');
    SplitHead(t, k, '-');
  }

  /**
   The first option, in table order, whose license equals `lic`, as an index;
   `None` when no option has that license.
   */
  function FirstWithLicense(options: seq<FirmwareOption>, lic: Option<string>): (r: Option<nat>)
    ensures r.Some? ==>
              && r.value < |options|
              && options[r.value].license == lic
              && forall j :: 0 <= j < r.value ==> options[j].license != lic
    ensures r.None? <==> forall j :: 0 <= j < |options| ==> options[j].license != lic
    decreases |options|
  {
    if |options| == 0 then
      None
    else if options[0].license == lic then
      Some(0)
    else
      match FirstWithLicense(options[1..], lic)
      case None => None
      case Some(i) => Some(i + 1)
  }

  /**
   Disambiguation inside a non-empty family: a single option is taken
   whatever the license; otherwise the first option with license `lic`.
   */
  function SelectOption(options: seq<FirmwareOption>, lic: Option<string>): (r: Option<FirmwareOption>)
    requires |options| >= 1
    ensures |options| == 1 ==> r == Some(options[0])
    ensures |options| > 1 ==>
              (r.Some? <==> exists i :: 0 <= i < |options| && options[i].license == lic)
    ensures |options| > 1 && r.Some? ==>
              exists i :: && 0 <= i < |options|
                          && r.value == options[i]
                          && r.value.license == lic
                          && forall j :: 0 <= j < i ==> options[j].license != lic
  {
    if |options| > 1 then
      match FirstWithLicense(options, lic)
      case None => None
      case Some(i) => Some(options[i])
    else
      Some(options[0])
  }

  /** The whole program: one run on the three command-line arguments. */
  function Resolve(version: string, model: string, image: string): (out: Outcome)
    ensures out.IndexError? <==> model == "WS"
    ensures out.Emitted? && out.result.Failure? ==> out.result.msg == UnmappedMsg
    ensures out.Emitted? && out.result.Failure? <==>
              && ModelKey(model).Some?
              && (|| ModelKey(model).value !in ModelMap
                  || |ModelMap[ModelKey(model).value]| == 0
                  || SelectOption(ModelMap[ModelKey(model).value], InferLicense(image)).None?)
    ensures out.Emitted? && out.result.Success? ==>
              && ModelKey(model).Some?
              && ModelKey(model).value in ModelMap
              && (exists i :: && 0 <= i < |ModelMap[ModelKey(model).value]|
                              && ModelMap[ModelKey(model).value][i].version == out.result.targetOs
                              && ModelMap[ModelKey(model).value][i].image == out.result.targetFile)
              && |ModelMap[ModelKey(model).value]| >= 1
              && SelectOption(ModelMap[ModelKey(model).value], InferLicense(image)).Some?
              && SelectOption(ModelMap[ModelKey(model).value], InferLicense(image)).value.version
                   == out.result.targetOs
              && SelectOption(ModelMap[ModelKey(model).value], InferLicense(image)).value.image
                   == out.result.targetFile
              && (out.result.updateRequired <==> out.result.targetOs != version)
              && out.result.msg == (if out.result.updateRequired then MappedMsg else CurrentMsg)
  {
    var lic := InferLicense(image);
    match ModelKey(model)
    case None => IndexError
    case Some(key) =>
      if key !in ModelMap || |ModelMap[key]| == 0 then
        Emitted(Failure(UnmappedMsg))
      else
        match SelectOption(ModelMap[key], lic)
        case None => Emitted(Failure(UnmappedMsg))
        case Some(chosen) =>
          if chosen.version == version then
            Emitted(Success(false, CurrentMsg, chosen.version, chosen.image))
          else
            Emitted(Success(true, MappedMsg, chosen.version, chosen.image))
  }
}
