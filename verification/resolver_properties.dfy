/**
 Properties of the resolver that relate several runs, or a run to the
 table: which option a family yields, when it fails, and that every image
 in the table resolves to itself.
 */
module ResolverProperties {
  import opened Optional
  import opened Strings
  import opened FirmwareTable
  import opened LicenseInference
  import opened Resolver

  /** In a well-formed multi-option family, an option's own license selects exactly it. */
  lemma FirstWithLicenseFindsOwner(options: seq<FirmwareOption>, i: nat)
    requires FamilyWellFormed(options) && |options| > 1 && i < |options|
    ensures FirstWithLicense(options, options[i].license) == Some(i)
  {
    var r := FirstWithLicense(options, options[i].license);
    assert r.Some?;
    assert options[r.value].license == options[i].license;
  }

  /** Every table key is its own normalised model key. */
  lemma TableKeyIsModelKey(key: string)
    requires key in ModelMap
    ensures ModelKey(key) == Some(key)
  {
    assert '-' !in key && key != "WS";
    KeyOfPlainModel(key, key);
  }

  /** A model whose family is absent from the table fails with the unmapped message. */
  lemma UnknownFamilyFails(version: string, model: string, image: string)
    requires ModelKey(model).Some? && ModelKey(model).value !in ModelMap
    ensures Resolve(version, model, image) == Emitted(Failure(UnmappedMsg))
  {
  }

  /** A single-option family yields its option whatever the image name is. */
  lemma SingleOptionIgnoresImage(version: string, model: string, image1: string, image2: string)
    requires ModelKey(model).Some? && ModelKey(model).value in ModelMap
    requires |ModelMap[ModelKey(model).value]| == 1
    ensures Resolve(version, model, image1) == Resolve(version, model, image2)
    ensures Resolve(version, model, image1).Emitted?
    ensures Resolve(version, model, image1).result.Success?
    ensures Resolve(version, model, image1).result.targetFile == ModelMap[ModelKey(model).value][0].image
    ensures Resolve(version, model, image1).result.targetOs == ModelMap[ModelKey(model).value][0].version
  {
  }

  /** A multi-option family with no license recognised in the image fails. */
  lemma MultiOptionWithoutLicenseFails(version: string, model: string, image: string)
    requires ModelKey(model).Some? && ModelKey(model).value in ModelMap
    requires |ModelMap[ModelKey(model).value]| > 1
    requires InferLicense(image) == None
    ensures Resolve(version, model, image) == Emitted(Failure(UnmappedMsg))
  {
    var options := ModelMap[ModelKey(model).value];
    ModelMapWellFormed(ModelKey(model).value);
    assert forall j :: 0 <= j < |options| ==> options[j].license != None;
  }

  /**
   In a multi-option family, the option whose license is the inferred one is
   selected, and both target fields come from it.
   */
  lemma MultiOptionSelectsLicensed(version: string, model: string, image: string, i: nat)
    requires ModelKey(model).Some? && ModelKey(model).value in ModelMap
    requires |ModelMap[ModelKey(model).value]| > 1
    requires i < |ModelMap[ModelKey(model).value]|
    requires ModelMap[ModelKey(model).value][i].license == InferLicense(image)
    ensures Resolve(version, model, image) ==
              var chosen := ModelMap[ModelKey(model).value][i];
              Emitted(Success(chosen.version != version,
                              if chosen.version == version then CurrentMsg else MappedMsg,
                              chosen.version, chosen.image))
  {
    ModelMapWellFormed(ModelKey(model).value);
    FirstWithLicenseFindsOwner(ModelMap[ModelKey(model).value], i);
  }

  /** The `lanbase` image name holds no `lanlite` tag: it has no `t` at all. */
  lemma LanbaseImageLacksLanlite(image: string)
    requires image == "c2960-lanbasek9-mz.150-2.SE11.bin"
    ensures !Contains(image, "lanlite")
  {
    MissingCharNotContained(image, "lanlite", 't');
  }

  /** The `lanbase` image name holds the `lanbase` tag after the family prefix. */
  lemma LanbaseImageHasLanbase(image: string)
    requires image == "c2960-lanbasek9-mz.150-2.SE11.bin"
    ensures Contains(image, "lanbase")
  {
    assert image == "c2960-" + "lanbase" + "k9-mz.150-2.SE11.bin";
    ContainsInfix("c2960-", "lanbase", "k9-mz.150-2.SE11.bin");
  }

  /** The name of a `lanbase` image infers `lanbase`, although `lanlite` is checked first. */
  lemma LanbaseImageLicense(image: string)
    requires image == "c2960-lanbasek9-mz.150-2.SE11.bin"
    ensures InferLicense(image) == Some("lanbase")
  {
    LanbaseImageLacksLanlite(image);
    LanbaseImageHasLanbase(image);
  }

  /** The name of a `lanlite` image infers `lanlite`. */
  lemma LanliteImageLicense(image: string)
    requires image == "c2960-lanlitek9-mz.150-2.SE11.bin"
    ensures InferLicense(image) == Some("lanlite")
  {
    assert image == "c2960-" + "lanlite" + "k9-mz.150-2.SE11.bin";
    ContainsInfix("c2960-", "lanlite", "k9-mz.150-2.SE11.bin");
  }

  /** The name of an `ipbase` image infers `ipbase`: neither `lan` tag occurs in it. */
  lemma IpbaseImageLicense(family: string, image: string)
    requires 'l' !in family
    requires image == family + "ipbase" + "k9-mz.150-2.SE11.bin"
    ensures InferLicense(image) == Some("ipbase")
  {
    assert 'l' !in image;
    MissingCharNotContained(image, "lanlite", 'l');
    MissingCharNotContained(image, "lanbase", 'l');
    ContainsInfix(family, "ipbase", "k9-mz.150-2.SE11.bin");
  }

  /** The name of an `ipservices` image infers `ipservices`: no higher tag occurs in it. */
  lemma IpservicesImageLicense(family: string, image: string)
    requires 'l' !in family && 'b' !in family
    requires image == family + "ipservices" + "k9-mz.150-2.SE11"
    ensures InferLicense(image) == Some("ipservices")
  {
    assert 'l' !in image && 'b' !in image;
    MissingCharNotContained(image, "lanlite", 'l');
    MissingCharNotContained(image, "lanbase", 'l');
    MissingCharNotContained(image, "ipbase", 'b');
    ContainsInfix(family, "ipservices", "k9-mz.150-2.SE11");
  }

  /** Both `C2960` images infer their own license. */
  lemma LanFamilyImageLicense(option: FirmwareOption)
    requires option in ModelMap["C2960"]
    ensures InferLicense(option.image) == option.license
  {
    if option == ModelMap["C2960"][0] {
      LanbaseImageLicense(option.image);
    } else {
      LanliteImageLicense(option.image);
    }
  }

  /** The `C3560` and `C3560C` families list the `c3560-` images. */
  lemma C3560FamilyImages(key: string)
    requires key == "C3560" || key == "C3560C"
    ensures ModelMap[key][0].image == "c3560-ipbasek9-mz.150-2.SE11.bin"
    ensures ModelMap[key][1].image == "c3560-ipservicesk9-mz.150-2.SE11"
  {
  }

  /** The `C3750` family lists the `c3750-` images. */
  lemma C3750FamilyImages()
    ensures ModelMap["C3750"][0].image == "c3750-ipbasek9-mz.150-2.SE11.bin"
    ensures ModelMap["C3750"][1].image == "c3750-ipservicesk9-mz.150-2.SE11"
  {
  }

  /** The `c3560-` image names are the prefix, the license tag and a suffix. */
  lemma C3560ImageNames(ipbase: string, ipservices: string)
    requires ipbase == "c3560-ipbasek9-mz.150-2.SE11.bin"
    requires ipservices == "c3560-ipservicesk9-mz.150-2.SE11"
    ensures ipbase == "c3560-" + "ipbase" + "k9-mz.150-2.SE11.bin"
    ensures ipservices == "c3560-" + "ipservices" + "k9-mz.150-2.SE11"
  {
  }

  /** The `c3750-` image names are the prefix, the license tag and a suffix. */
  lemma C3750ImageNames(ipbase: string, ipservices: string)
    requires ipbase == "c3750-ipbasek9-mz.150-2.SE11.bin"
    requires ipservices == "c3750-ipservicesk9-mz.150-2.SE11"
    ensures ipbase == "c3750-" + "ipbase" + "k9-mz.150-2.SE11.bin"
    ensures ipservices == "c3750-" + "ipservices" + "k9-mz.150-2.SE11"
  {
  }

  /** Each licensed image in the table carries its own license tag in its name. */
  lemma TableImageLicense(key: string, i: nat)
    requires key in ModelMap && |ModelMap[key]| > 1 && i < |ModelMap[key]|
    ensures InferLicense(ModelMap[key][i].image) == ModelMap[key][i].license
  {
    var option := ModelMap[key][i];
    if key == "C2960" {
      LanFamilyImageLicense(option);
    } else {
      var prefix := if key == "C3750" then "c3750-" else "c3560-";
      var ipbase := ModelMap[key][0].image;
      var ipservices := ModelMap[key][1].image;
      if key == "C3750" {
        C3750FamilyImages();
        C3750ImageNames(ipbase, ipservices);
      } else {
        C3560FamilyImages(key);
        C3560ImageNames(ipbase, ipservices);
      }
      if i == 0 {
        IpbaseImageLicense(prefix, ipbase);
      } else {
        IpservicesImageLicense(prefix, ipservices);
      }
    }
  }

  /**
   A device already running a table image at its version needs no update:
   resolving the family key with that image and version reports it current.
   */
  lemma TableImagesAreCurrent(key: string, i: nat)
    requires key in ModelMap && i < |ModelMap[key]|
    ensures Resolve(ModelMap[key][i].version, key, ModelMap[key][i].image) ==
              Emitted(Success(false, CurrentMsg, ModelMap[key][i].version, ModelMap[key][i].image))
  {
    TableKeyIsModelKey(key);
    if |ModelMap[key]| > 1 {
      TableImageLicense(key, i);
      MultiOptionSelectsLicensed(ModelMap[key][i].version, key, ModelMap[key][i].image, i);
    }
  }

  /** The version test is exact: any other version string asks for an update. */
  lemma OtherVersionRequiresUpdate(key: string, i: nat, version: string)
    requires key in ModelMap && i < |ModelMap[key]|
    requires version != ModelMap[key][i].version
    ensures Resolve(version, key, ModelMap[key][i].image) ==
              Emitted(Success(true, MappedMsg, ModelMap[key][i].version, ModelMap[key][i].image))
  {
    TableKeyIsModelKey(key);
    if |ModelMap[key]| > 1 {
      TableImageLicense(key, i);
      MultiOptionSelectsLicensed(version, key, ModelMap[key][i].image, i);
    }
  }
}
