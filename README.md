# Release-artifact preparation script, modelled in Dafny

This project models `scripts/upload.py`, the script that gets a serverless
template ready for release. The script does four things:

1. It assigns the configured signing profile to every
   `AWS::Serverless::Function` and `AWS::Serverless::LayerVersion`
   (`signing_profiles`).
2. It calls `sam package`. The `--signing-profiles` argument is added only when
   there is something to sign (`sign_resources`).
3. It stamps every packaged artifact with build provenance
   (`lambda_provenance`). Each `CodeUri` and `ContentUri` object is copied onto
   itself with `--metadata`.
4. It zips the packaged template and uploads it to
   `s3://<artifact bucket>/template.zip`, passing the release provenance along
   (`upload_artifact`).

How the model is built:

- `Config` holds the process environment.
- The Function and LayerVersion maps that the template library finds are
  inputs. A Python dict becomes `Dicts.Dict`: an association list in insertion
  order with no key twice. `Dicts.Union` is Python's `a | b`.
- Each `subprocess.run` call becomes a `Run` record of its positional
  arguments. An operation returns the records it would issue, in order.
- `signing_profiles` and `lambda_provenance` loop and append, so they are
  methods with loops: `Upload.SigningProfiles` (whose loop is
  `Upload.AppendFragments`) and `Upload.LambdaProvenance` (whose two loops share
  the shape `Upload.TagEach`). Each is proved equal to a specification
  function: `Fragments` over the merged keys, and `ProvenancePlan`.
- The metadata strings, the packaging branch and the upload are functions.

Some properties need a way to read a string back. `ParseProfiles` and
`ParseMetadata` are reference readers for this. They split on the separator,
then cut each entry at its first `=`. They are not functions of the script.
They state what the strings mean: which assignment a signing-profiles value
carries, and which key/value entries a `--metadata` value carries.

Details of the script's behaviour the model keeps:

- The signing-profile accumulator is a list that each fragment string extends
  character by character, so the model holds it as a sequence of characters.
- The metadata keys are the lower-case words the script writes (`commitsha`,
  `mergetime`, `skipcanary`, `codepipeline-artifact-revision-summary`).
- The bucket argument of `sam package` is the literal text
  `--s3-bucket="$ARTIFACT_BUCKET"`.
- No exit status is read, so the commands recorded do not depend on one
  another's outcome. A resource whose `Properties` or location property is
  missing raises a `KeyError`, which ends tagging there. If that resource is a
  function, no layer is tagged. The model returns the id of that resource in
  `missing`.
- The release metadata is the second positional argument of the upload call,
  not an element of the command itself.

## Model

| member | source | states |
|---|---|---|
| `Dicts.Union` | scripts/upload.py:30 | The merged map (`functions` merged with `layers`) lists the function keys in their order, then the layer keys not already present in theirs. Its key set is the union of both key sets. It is empty exactly when both maps are empty. |
| `Dicts.GetUnion` | scripts/upload.py:30 | In the merged map (`functions` merged with `layers`), a key takes the layer's value when the layer map has it, and the function's value otherwise. |
| `Upload.Location` | scripts/upload.py:76 | `configuration['Properties'][property]` yields a location exactly when `Properties` is present and holds the property, and that location is the property's value. Otherwise it is a `KeyError`. |
| `Upload.Fragments` | scripts/upload.py:35-36 | The concatenated fragments are empty exactly when there are no resources, because every fragment is non-empty. |
| `Upload.FragmentsSnoc` | scripts/upload.py:35-36 | Handling one more resource appends exactly its `<id>=<profile> ` fragment to the accumulator. |
| `Upload.AppendFragments` | scripts/upload.py:32-36 | Starting from an empty list and extending it with one fragment per id, in order, gives exactly the concatenation of the fragments of all the ids. |
| `Upload.SigningProfiles` | scripts/upload.py:22-38 | The accumulator is the concatenation of `<id>=<profile> ` over the keys of the merged map (`functions` merged with `layers`), in iteration order. It is empty exactly when there are no Functions and no LayerVersions. |
| `Upload.ProfilesRoundTrip` | scripts/upload.py:35-36 | Read back, the fragments give each logical id paired with the one configured profile, in order. This holds when ids contain no space or `=` and the profile name contains no space. |
| `Upload.SigningAssignment` | scripts/upload.py:26-38 | The assignment the accumulator carries has one entry for every Function and LayerVersion and no other entry. No id appears twice, and every entry has the configured profile. |
| `Upload.PackageArgs` | scripts/upload.py:44-47 | The arguments both shapes of the `sam package` call share are four. They name the input template and `cf-template.yaml` as the output template, and none of them is a signing directive. |
| `Upload.SignResources` | scripts/upload.py:41-58 | An empty accumulator gives exactly the four common arguments. A non-empty one gives the same four, then one `--signing-profiles …` argument. Only that argument is a signing directive. The returned name is `cf-template.yaml`, which is also the `--output-template-file` value. |
| `Upload.SigningDirectiveIffResources` | scripts/upload.py:43-55 | Across both steps, the packaging call carries a signing directive exactly when the template has at least one Function or LayerVersion. |
| `Upload.ReleaseProvenance` | scripts/upload.py:93-101 | The release provenance has nine entries. The first six are the build-provenance entries. Entries seven and eight are `mergetime` and `skipcanary` with their configured values. The revision summary carries the same value as `release`. |
| `Upload.BuildMetadata` | scripts/upload.py:63-69 | A definition: `','.join` of the six `key=value` build entries. What it carries is stated by `Upload.BuildMetadataRoundTrip`. |
| `Upload.ReleaseMetadata` | scripts/upload.py:93-102 | A definition: `','.join` of the nine `key=value` release entries. What it carries is stated by `Upload.ReleaseMetadataRoundTrip`, and its relation to the build metadata by `Upload.ReleaseExtendsBuild`. |
| `Upload.SerialiseRoundTrip` | scripts/upload.py:69 | A comma-joined `key=value` list reads back as the same entries exactly when no value contains a comma. |
| `Upload.BuildMetadataRoundTrip` | scripts/upload.py:63-69 | The build metadata reads back as the six entries repository, commitsha, committag, commitmessage, commitauthor and release, in that order. This holds exactly when none of the six configured values contains a comma. |
| `Upload.ReleaseMetadataRoundTrip` | scripts/upload.py:93-102 | The release metadata reads back as its nine entries exactly when none of the configured values in it contains a comma. |
| `Upload.ReleaseExtendsBuild` | scripts/upload.py:93-102 | The release metadata text is the build metadata text, a comma, then the three release-only entries. |
| `Upload.CopyCommand` | scripts/upload.py:78 | The copy call is one list of two strings, and the second is `--metadata ` followed by the metadata. |
| `Upload.CopyCommandInjective` | scripts/upload.py:78 | Two copy calls are equal exactly when they copy the same object onto itself with the same metadata, so a command names its object and its metadata. |
| `Upload.FirstMissing` | scripts/upload.py:74-85 | Gives the position where a tagging loop raises `KeyError`. Every earlier resource has its location, and the resource at that position lacks it (or the position is past the end). |
| `Upload.Tag` | scripts/upload.py:74-85 | One tagging loop reports a missing resource exactly when some resource lacks the location property, and then it reports the first one. Every command before it is the self-copy of that resource's location with the metadata. |
| `Upload.TagEach` | scripts/upload.py:74-85 | The loop, run over a resource map, issues exactly the commands of `Upload.Tag` and stops where it does. |
| `Upload.ProvenancePlan` | scripts/upload.py:60-85 | Both loops together issue at most one command per resource, and exactly one per resource when nothing is missing. |
| `Upload.LambdaProvenance` | scripts/upload.py:60-85 | The commands issued and the id that ends the run are exactly those of `ProvenancePlan`. That plan tags functions by `CodeUri`, then layers by `ContentUri`, with one metadata string. |
| `Upload.TaggingComplete` | scripts/upload.py:74-85 | When every resource has its location, exactly (number of functions) + (number of layers) commands are issued, with nothing missing. The function copies come first, in order, then the layer copies. Each copy has source equal to destination (the resource's location) and carries the build metadata. |
| `Upload.TaggingStops` | scripts/upload.py:74-85 | A run ends early exactly when some resource lacks its location. The id reported is that of the first function without `CodeUri`, or, when every function has one, the first layer without `ContentUri`. The commands issued are the copies of the resources before it, in order: the functions before it, or every function and then the layers before it. Each is a self-copy with the build metadata. |
| `Upload.UploadArtifact` | scripts/upload.py:89-104 | The upload step is two calls. The first zips `cf-template.yaml` into `template.zip`. The second copies `template.zip` to `s3://<artifact bucket>/template.zip`, and its second positional argument is `--metadata ` followed by the release metadata, whatever the configured values hold. |
| `Upload.UploadShipsPackagedTemplate` | scripts/upload.py:89-91 | The file zipped and then uploaded is the output template name that `sign_resources` returns (lines 57-58), whichever shape the packaging call took. |
| `Upload.UploadCarriesReleaseProvenance` | scripts/upload.py:93-104 | When no configured value contains a comma, the upload's metadata argument reads back as the nine release entries. Its first six read back as the build metadata every artifact was tagged with, and its revision summary is the release. |
| `Text.Join` | scripts/upload.py:69 | A definition of Python's `sep.join` for a one-character separator. `Text.JoinSplit` is its inverse. |
| `Text.JoinSplit` | scripts/upload.py:69 | Splitting a `','.join` on `,` recovers the pieces whenever no piece contains a comma. |

## Left out

- Environment reads (scripts/upload.py:9-19): they are the `Config` record passed in. The `KeyError` for an unset variable is not modelled.
- Reading and parsing the templates (`Template.from_string`, `find_resources`): that is a foreign library. The Function and LayerVersion maps are inputs, and the filtering by resource type is the library's.
- `print` output, and opening and reading the template files.
- Running the recorded calls: the model records each call's positional arguments as written. It does not model how the process runner reads them. In particular:
  - the first element of a list is taken as the whole program name (for example `sam package`);
  - a single string such as `zip template.zip cf-template.yaml` is taken whole as a program name too, because there is no shell;
  - for the same reason, `$ARTIFACT_BUCKET` is not expanded;
  - the upload call's second positional argument fills the runner's buffer-size parameter, which does not accept a string.
- As written, each of those calls therefore fails when it is launched, and the exception ends the script at the first one. The properties here are about the arguments each call is given, not about a run that gets past that point. In particular, "no exit status is read" and "the upload passes the release provenance" describe the recorded arguments only.
- Exit statuses: the source never reads one, and the model has none.
- How Python renders the character list inside the `--signing-profiles` argument: this is the `render` parameter of `Upload.SignResources`.
- Property values that are not strings (a `CodeUri` given as a bucket/key map, say): `Resource` holds string-valued properties only.
- Remote storage behaviour: reading metadata back from an object, and overwriting it twice. This belongs to the storage service.
- The top-level driver (scripts/upload.py:106-109). It discards the accumulator, passes the function object itself to `sign_resources`, and names an undefined `cf_template`. It is not modelled as an operation.
- eslint.config.mjs: lint configuration, with no behaviour.
- Upload.ProfilesRoundTrip, Upload.SigningAssignment: these are stated for logical ids with no space or `=` and a profile name with no space. Otherwise the space-separated value cannot be read back unambiguously.
