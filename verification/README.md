# Firmware resolver model

A Dafny model of the firmware resolver of the `update_os` role
(`roles/update_os/files/version_lookup.py`). Given the running firmware
version, the device model string and the running image file name, the
resolver

1. infers a license variant from the image name by a prioritised substring
   scan (`lanlite`, then `lanbase`, then `ipbase`, then `ipservices`,
   otherwise none);
2. splits the model on `-` and drops one leading `"WS"` segment;
3. looks the first remaining segment up in the static `MODEL_MAP` table;
4. takes the only option of a single-option family, or the first option in
   table order whose license equals the inferred one;
5. compares the selected version with the running version by exact string
   equality and reports whether an update is required.

Modules, one per concern of the script:

- `Optional` (`optional.dfy`): `Option`, standing for Python's `None`.
- `Strings` (`strings.dfy`): Python's `needle in haystack` (`Contains`) and
  `s.split(sep)` (`Split`), with their reference definitions and round trips.
- `FirmwareTable` (`firmware_table.dfy`): `FirmwareOption`, the constant
  `ModelMap` (the same keys as the script, and for each family the same
  options in the same order), and the table invariant.
- `LicenseInference` (`license_inference.dfy`): the priority chain.
- `Resolver` (`resolver.dfy`): normalisation, disambiguation and `Resolve`,
  the whole run. Its result is an `Outcome`: `Emitted(r)` for the one JSON
  object the script prints, or `IndexError` for the one input on which the
  script raises (the bare model `"WS"`: splitting gives `["WS"]`, the pop
  empties it, and `model[0]` fails). `ResolutionResult.Failure(msg)` is the
  `{success: false, msg}` object; `Success(updateRequired, msg, targetOs,
  targetFile)` is the `{success: true, ...}` object.
- `ResolverProperties` (`resolver_properties.dfy`): properties over all
  inputs and over the whole table.
- `Scenarios` (`scenarios.dfy`): example runs (a C9300 already current, a
  `WS-C2960X-24TS-L` needing an update, a C2960 on the lanlite image, a C2960
  with no image name, an unknown C4500) and the normalisation edge cases
  (`"WS"`, `"WS-"`, `"WSC2960-24"`).

Two behaviours of the script are kept exactly:

- The script raises `IndexError` on the model `"WS"` (`split` gives `["WS"]`,
  the pop empties it, `model[0]` fails); `Resolve` returns the explicit
  `IndexError` outcome, distinct from the failure result.
- The script tests `if not target`, which also holds for an empty option
  list; the model keeps both conditions, although the table has no empty
  family.

## Model

| member | source | states |
|---|---|---|
| Strings.Contains | roles/update_os/files/version_lookup.py:84-91 | Python's `in` test on the image name: it holds exactly when the tag occurs at some position of the name |
| Strings.ContainsInfix | roles/update_os/files/version_lookup.py:84-91 | a name built around a tag contains that tag |
| Strings.MissingCharNotContained | roles/update_os/files/version_lookup.py:84-91 | a tag with a character the name lacks is not found in the name |
| Strings.Split | roles/update_os/files/version_lookup.py:95 | splitting on `-` gives at least one segment, no segment holds `-`, and joining the segments with `-` rebuilds the model string |
| Strings.SplitJoin | roles/update_os/files/version_lookup.py:95 | splitting a join of `-`-free segments gives back those segments, so `Split` is the only such decomposition |
| Strings.SplitOfSegment | roles/update_os/files/version_lookup.py:95-97 | a `-`-free string splits to the one-element list holding it, so `"WS"` splits to `["WS"]` |
| Strings.SplitAtSep | roles/update_os/files/version_lookup.py:95 | a leading `-` closes an empty first segment |
| Strings.SplitAtChar | roles/update_os/files/version_lookup.py:95 | a leading character other than `-` extends the first segment of the rest |
| Strings.SplitAtFirst | roles/update_os/files/version_lookup.py:95 | splitting peels off exactly one segment at the first `-` and splits the rest independently |
| Strings.SplitHead | roles/update_os/files/version_lookup.py:95-100 | the first element of the split is the string's first segment |
| Strings.FirstSegmentUnique | roles/update_os/files/version_lookup.py:95-100 | a string has exactly one first segment, so the lookup key is determined |
| FirmwareTable.ModelMapWellFormed | roles/update_os/files/version_lookup.py:12-82 | every family has at least one option, and in a multi-option family every license is present and the licenses are pairwise distinct |
| LicenseInference.InferLicense | roles/update_os/files/version_lookup.py:84-93 | the license is None exactly when no tag occurs in the image name; otherwise it is a tag that occurs and no higher-priority tag occurs |
| LicenseInference.PriorityRespected | roles/update_os/files/version_lookup.py:84-91 | a tag present in the name prevents any lower-priority tag from being inferred |
| LicenseInference.FirstPresentTagInferred | roles/update_os/files/version_lookup.py:84-93 | the highest-priority tag present in the name is the inferred license |
| LicenseInference.EmptyImageHasNoLicense | roles/update_os/files/version_lookup.py:9 | the default empty image name infers no license |
| Resolver.ModelSegments | roles/update_os/files/version_lookup.py:95-98 | the split's head is the first segment, the split is just `["WS"]` only for the model `"WS"`, and after a leading `"WS-"` the second element is the next segment |
| Resolver.ModelKey | roles/update_os/files/version_lookup.py:95-100 | normalisation fails only on the bare model `"WS"`; otherwise the key is the first `-`-free segment if that segment is not `"WS"`, or the segment after a leading `"WS-"` |
| Resolver.KeyOfPlainModel | roles/update_os/files/version_lookup.py:95-100 | a model whose first segment is not `"WS"` is looked up under that segment |
| Resolver.KeyOfPrefixedModel | roles/update_os/files/version_lookup.py:95-100 | a model starting with `"WS-"` is looked up under the following segment, with exactly one segment dropped |
| Resolver.FirstWithLicense | roles/update_os/files/version_lookup.py:113-118 | the for/else scan returns the first index, in table order, whose license equals the inferred one, and none exactly when no option matches |
| Resolver.SelectOption | roles/update_os/files/version_lookup.py:112-128 | a single option is taken whatever the license; in a larger family an option is chosen exactly when one has the inferred license, and it is the first such one |
| Resolver.Resolve | roles/update_os/files/version_lookup.py:84-148 | the run raises only on `"WS"`; it fails, always with the unmapped message, exactly when the key is unknown, its family is empty or no option is selected; on success both targets come from the one option `SelectOption` picks for the inferred license, an update is required exactly when the target version differs from the running one, and the message follows that flag |
| ResolverProperties.FirstWithLicenseFindsOwner | roles/update_os/files/version_lookup.py:113-117 | in a well-formed multi-option family, an option's own license selects exactly that option |
| ResolverProperties.TableKeyIsModelKey | roles/update_os/files/version_lookup.py:95-100 | every table key, used as a model string, normalises to itself |
| ResolverProperties.UnknownFamilyFails | roles/update_os/files/version_lookup.py:100-110 | a key absent from the table yields the failure object with the unmapped message and nothing else |
| ResolverProperties.SingleOptionIgnoresImage | roles/update_os/files/version_lookup.py:126-128 | for a single-option family the result does not depend on the image name, and it is a success targeting that option |
| ResolverProperties.MultiOptionWithoutLicenseFails | roles/update_os/files/version_lookup.py:112-124 | a multi-option family with no license inferred fails with the same message as an unknown model |
| ResolverProperties.MultiOptionSelectsLicensed | roles/update_os/files/version_lookup.py:112-117 | in a multi-option family the option carrying the inferred license is selected, and version, image, flag and message all follow from it |
| ResolverProperties.LanbaseImageLicense | roles/update_os/files/version_lookup.py:84-87 | the C2960 `lanbase` image name infers `lanbase`, the `lanlite` test before it not matching |
| ResolverProperties.IpservicesImageLicense | roles/update_os/files/version_lookup.py:84-91 | an `ipservices` image name infers `ipservices`: none of the three higher-priority tags occurs in it |
| ResolverProperties.TableImageLicense | roles/update_os/files/version_lookup.py:34-93 | each image name of a multi-option family infers exactly the license it is tagged with in the table |
| ResolverProperties.TableImagesAreCurrent | roles/update_os/files/version_lookup.py:130-139 | a device of any family running any table image at its version is reported current, with that image as target |
| ResolverProperties.OtherVersionRequiresUpdate | roles/update_os/files/version_lookup.py:141-147 | any running version other than the target's exact string reports that an update is required |
| Scenarios.C9300Current | roles/update_os/files/version_lookup.py:13-19 | a C9300 on `16.12.03a` with no image name is current |
| Scenarios.C9300IgnoresLicense | roles/update_os/files/version_lookup.py:126-128 | a C9300 whose image name holds `ipbase` still gets the C9300 image |
| Scenarios.PrefixedC2960XNeedsUpdate | roles/update_os/files/version_lookup.py:95-100 | `WS-C2960X-24TS-L` on `15.0(1)SE` maps to the C2960X image and needs an update |
| Scenarios.C2960LanliteCurrent | roles/update_os/files/version_lookup.py:40-44 | a C2960 running the lanlite image at its version is current |
| Scenarios.C2960DottedVersionNeedsUpdate | roles/update_os/files/version_lookup.py:130 | `15.0.2.SE11` is not `15.0(2)SE11`: no version normalisation takes place |
| Scenarios.C2960WithoutHintFails | roles/update_os/files/version_lookup.py:118-124 | a C2960 with an empty image name fails |
| Scenarios.UnknownC4500Fails | roles/update_os/files/version_lookup.py:104-110 | an unknown family fails |
| Scenarios.BareWsCrashes | roles/update_os/files/version_lookup.py:95-100 | the bare model `"WS"` ends in an index error, not in a failure object |
| Scenarios.WsDashIsUnknown | roles/update_os/files/version_lookup.py:95-110 | `"WS-"` is looked up under the empty key and fails as an unknown family |
| Scenarios.WsMustBeWholeSegment | roles/update_os/files/version_lookup.py:97-98 | a first segment that merely starts with `WS` is not dropped |

## Left out

- Argument parsing (`argparse`) and its missing-argument exit path: the three arguments are plain string parameters of `Resolve`, with the image's default `""` shown by `EmptyImageHasNoLicense`.
- JSON serialisation, `print` and `exit()`: the `Outcome` value stands for the one printed object; the process exit status is not modelled.
- The traceback and exit status of the `IndexError` on the model `"WS"`: the model records only that the run ends in that error.
- Identical inputs giving identical results needs no lemma: `Resolve` is a function of its arguments and the constant table.
