/**
  The release-artifact preparation script: it assigns the configured signing
  profile to every serverless Function and LayerVersion, chooses the arguments of
  the `sam package` call, stamps every packaged artifact with build provenance by
  copying each object onto itself with new metadata, and uploads the zipped
  template with release provenance.

  Every external process the script starts is modelled as a `Run` record of the
  positional arguments it hands to the process runner; an operation returns the
  records it would issue, in order. The environment is the `Config` record, and
  the Function and LayerVersion maps that the template library finds are inputs.
 */
module Upload {
  import opened Wrappers
  import opened Text
  import opened Dicts

  /** The process environment the script reads at start-up. */
  datatype Config = Config(
    signingProfileName: string,   // SIGNING_PROFILE
    templateFileName: string,     // TEMPLATE_FILE
    artifactBucket: string,       // ARTIFACT_BUCKET
    repository: string,           // REPOSITORY
    commitMessage: string,        // COMMIT_MESSAGE
    commitSha: string,            // GIT_SHA
    commitTag: string,            // GIT_TAG
    githubActor: string,          // GITHUB_ACTOR
    versionNumber: string,        // VERSION_NUMBER
    mergeTime: string,            // MERGE_TIME
    skipCanary: string)           // SKIP_CANARY_DEPLOYMENT

  /**
    A template resource as the template library returns it: its `Properties`
    section, which may be absent, with the string-valued properties in it.
   */
  datatype Resource = Resource(properties: Option<map<string, string>>)

  /** One positional argument of a process call: a string or a list of strings. */
  datatype Arg = Str(text: string) | List(items: seq<string>)

  /** One call of the process runner, with its positional arguments. */
  datatype Run = Run(positional: seq<Arg>)

  const CodeUriProperty := "CodeUri"
  const ContentUriProperty := "ContentUri"
  const OutputTemplate := "cf-template.yaml"
  const Archive := "template.zip"
  const SigningFlag := "--signing-profiles "
  const MetadataFlag := "--metadata "

  /**
    `configuration['Properties'][property]`: the artifact location, or None where
    the lookup raises a KeyError.
   */
  function Location(r: Resource, property: string): (uri: Option<string>)
    ensures uri.Some? <==> r.properties.Some? && property in r.properties.value
    ensures uri.Some? ==> uri.value == r.properties.value[property]
  {
    match r.properties
    case None => None
    case Some(props) => if property in props then Some(props[property]) else None
  }

  // ---------------------------------------------------------------------------
  // Signing-profile assembly
  // ---------------------------------------------------------------------------

  /** The fragment `<logicalId>=<profile> ` that assigns a profile to one resource. */
  function Fragment(id: string, profile: string): string
  {
    id + "=" + profile + " "
  }

  /** The fragments of all the given resources, in order. */
  function Fragments(ids: seq<string>, profile: string): (s: string)
    ensures s == [] <==> ids == []
  {
    if |ids| == 0 then "" else Fragment(ids[0], profile) + Fragments(ids[1..], profile)
  }

  lemma {:induction false} FragmentsSnoc(ids: seq<string>, id: string, profile: string)
    ensures Fragments(ids + [id], profile) == Fragments(ids, profile) + Fragment(id, profile)
    decreases |ids|
  {
    if |ids| == 0 {
      assert ids + [id] == [id];
    } else {
      assert (ids + [id])[1..] == ids[1..] + [id];
      FragmentsSnoc(ids[1..], id, profile);
    }
  }

  /** The fragments over the merged map are empty exactly when both maps are. */
  lemma NoResourcesNoProfiles(config: Config, functions: Dict<Resource>, layers: Dict<Resource>)
    ensures Fragments(Keys(Union(functions, layers)), config.signingProfileName) == []
            <==> functions == [] && layers == []
  {
    var resources := Union(functions, layers);
    assert Keys(resources) == [] <==> resources == [];
  }

  /**
    The accumulation loop: starting from an empty list, each resource id in
    turn extends it with its fragment.
   */
  method AppendFragments(ids: seq<string>, profile: string) returns (profiles: seq<char>)
    ensures profiles == Fragments(ids, profile)
  {
    profiles := [];
    for i := 0 to |ids|
      invariant profiles == Fragments(ids[..i], profile)
    {
      assert Fragments(ids[..i + 1], profile) == profiles + Fragment(ids[i], profile) by {
        assert ids[..i + 1] == ids[..i] + [ids[i]];
        FragmentsSnoc(ids[..i], ids[i], profile);
      }
      profiles := profiles + Fragment(ids[i], profile);
    }
    assert ids[..|ids|] == ids;
  }

  /**
    The signing-profile accumulator: one fragment per resource of the merged map
    `functions | layers`, in its iteration order. The source extends a list with
    each fragment string, which adds its characters one by one, so the list is
    the sequence of characters modelled here.
   */
  method SigningProfiles(config: Config, functions: Dict<Resource>, layers: Dict<Resource>)
    returns (profiles: seq<char>)
    ensures profiles == Fragments(Keys(Union(functions, layers)), config.signingProfileName)
    ensures profiles == [] <==> functions == [] && layers == []
  {
    NoResourcesNoProfiles(config, functions, layers);
    var resources := Union(functions, layers);
    profiles := AppendFragments(Keys(resources), config.signingProfileName);
  }

  /**
    The assignment a signing-profiles value stands for: its space-separated
    `id=profile` entries (the piece after the final space is empty and dropped),
    each cut at its first `=`.
   */
  function ParseProfiles(s: string): (assignment: seq<(string, string)>)
  {
    var pieces := Split(s, ' ');
    var entries := pieces[..|pieces| - 1];
    seq(|entries|, i requires 0 <= i < |entries| => SplitOnce(entries[i], '='))
  }

  /** The `id=profile` pieces the fragments hold, one per id, in order. */
  function Assignments(ids: seq<string>, profile: string): (pieces: seq<string>)
    ensures |pieces| == |ids|
    ensures forall i :: 0 <= i < |ids| ==> pieces[i] == ids[i] + "=" + profile
  {
    if |ids| == 0 then [] else [ids[0] + "=" + profile] + Assignments(ids[1..], profile)
  }

  lemma {:induction false} SplitFragments(ids: seq<string>, profile: string)
    requires forall i :: 0 <= i < |ids| ==> ' ' !in ids[i]
    requires ' ' !in profile
    ensures Split(Fragments(ids, profile), ' ') == Assignments(ids, profile) + [""]
    decreases |ids|
  {
    if |ids| > 0 {
      var head := ids[0] + "=" + profile;
      var rest := Fragments(ids[1..], profile);
      assert ' ' !in head;
      assert Fragments(ids, profile) == head + [' '] + rest;
      SplitPrefix(head, rest, ' ');
      SplitFragments(ids[1..], profile);
    }
  }

  /**
    Reading the fragments back gives each resource paired with the one
    configured profile, in order, provided logical ids contain neither a space
    nor `=` and the profile name contains no space.
   */
  lemma ProfilesRoundTrip(ids: seq<string>, profile: string)
    requires forall i :: 0 <= i < |ids| ==> ' ' !in ids[i] && '=' !in ids[i]
    requires ' ' !in profile
    ensures ParseProfiles(Fragments(ids, profile))
            == seq(|ids|, i requires 0 <= i < |ids| => (ids[i], profile))
  {
    SplitFragments(ids, profile);
    ReadAssignments(Fragments(ids, profile), ids, profile);
  }

  /** A value that splits into the `id=profile` pieces reads back as those pairs. */
  lemma ReadAssignments(s: string, ids: seq<string>, profile: string)
    requires forall i :: 0 <= i < |ids| ==> '=' !in ids[i]
    requires Split(s, ' ') == Assignments(ids, profile) + [""]
    ensures ParseProfiles(s) == seq(|ids|, i requires 0 <= i < |ids| => (ids[i], profile))
  {
    var entries := Split(s, ' ')[..|ids|];
    assert entries == Assignments(ids, profile);
    forall i | 0 <= i < |ids| ensures SplitOnce(entries[i], '=') == (ids[i], profile) {
      SplitOnceOf(ids[i], profile, '=');
    }
  }

  /**
    The assignment carried by the accumulator has one entry per Function and
    LayerVersion, each with the configured profile, and no other entry.
   */
  lemma SigningAssignment(config: Config, functions: Dict<Resource>, layers: Dict<Resource>)
    requires forall i :: 0 <= i < |functions| ==> ' ' !in functions[i].0 && '=' !in functions[i].0
    requires forall i :: 0 <= i < |layers| ==> ' ' !in layers[i].0 && '=' !in layers[i].0
    requires ' ' !in config.signingProfileName
    ensures var assignment := ParseProfiles(Fragments(Keys(Union(functions, layers)), config.signingProfileName));
            && (forall i :: 0 <= i < |assignment| ==> assignment[i].1 == config.signingProfileName)
            && (forall id :: id in Keys(assignment) <==> id in Keys(functions) || id in Keys(layers))
            && DistinctKeys(assignment)
  {
    var resources := Union(functions, layers);
    var ids := Keys(resources);
    var profile := config.signingProfileName;
    MergedIdsPlain(functions, layers, ids);
    ProfilesRoundTrip(ids, profile);
    var assignment := ParseProfiles(Fragments(ids, profile));
    assert forall i :: 0 <= i < |assignment| ==> assignment[i] == (ids[i], profile);
    assert Keys(assignment) == ids;
    assert DistinctKeys(assignment) by {
      forall i, j | 0 <= i < j < |assignment| ensures assignment[i].0 != assignment[j].0 {
        assert assignment[i].0 == resources[i].0 && assignment[j].0 == resources[j].0;
      }
    }
  }

  /** The merged ids keep the restriction both maps' ids obey. */
  lemma MergedIdsPlain(functions: Dict<Resource>, layers: Dict<Resource>, ids: seq<string>)
    requires forall i :: 0 <= i < |functions| ==> ' ' !in functions[i].0 && '=' !in functions[i].0
    requires forall i :: 0 <= i < |layers| ==> ' ' !in layers[i].0 && '=' !in layers[i].0
    requires ids == Keys(Union(functions, layers))
    ensures forall i :: 0 <= i < |ids| ==> ' ' !in ids[i] && '=' !in ids[i]
  {
    forall i | 0 <= i < |ids| ensures ' ' !in ids[i] && '=' !in ids[i] {
      assert ids[i] in Keys(functions) || ids[i] in Keys(layers);
      if ids[i] in Keys(functions) {
        var j :| 0 <= j < |functions| && Keys(functions)[j] == ids[i];
      } else {
        var j :| 0 <= j < |layers| && Keys(layers)[j] == ids[i];
      }
    }
  }

  // ---------------------------------------------------------------------------
  // Packaging-argument selection
  // ---------------------------------------------------------------------------

  /** The record of a `sam package` call and the output template name returned. */
  datatype Packaging = Packaging(command: Run, outputTemplate: string)

  /** An argument that asks `sam package` to sign: it starts with the flag. */
  predicate IsSigningArg(a: string)
  {
    SigningFlag <= a
  }

  /**
    The arguments common to both shapes of the `sam package` call: the program,
    the bucket, the input template and the output template; none of them asks
    for signing.
   */
  function PackageArgs(templateFileName: string): (args: seq<string>)
    ensures |args| == 4
    ensures args[2] == "--template-file=" + templateFileName
    ensures args[3] == "--output-template-file=" + OutputTemplate
    ensures forall i :: 0 <= i < |args| ==> !IsSigningArg(args[i])
  {
    var args := ["sam package",
                 "--s3-bucket=\"$ARTIFACT_BUCKET\"",
                 "--template-file=" + templateFileName,
                 "--output-template-file=" + OutputTemplate];
    assert !IsSigningArg(args[0]) by { assert args[0][0] != SigningFlag[0]; }
    assert !IsSigningArg(args[1]) by { assert args[1][3] != SigningFlag[3]; }
    assert !IsSigningArg(args[2]) by { assert args[2][2] != SigningFlag[2]; }
    assert !IsSigningArg(args[3]) by { assert args[3][2] != SigningFlag[2]; }
    args
  }

  /**
    The `sam package` call: the signing directive is present only when the
    accumulator is non-empty, in which case `render` gives the text the list
    becomes inside the argument; the output template name is returned in both
    cases.
   */
  function SignResources(templateFileName: string, profiles: seq<char>, render: seq<char> -> string)
    : (p: Packaging)
    ensures p.outputTemplate == OutputTemplate
    ensures |p.command.positional| == 1 && p.command.positional[0].List?
    ensures var argv := p.command.positional[0].items;
            && |argv| == (if profiles == [] then 4 else 5)
            && argv[..4] == PackageArgs(templateFileName)
            && argv[3] == "--output-template-file=" + p.outputTemplate
            && (profiles != [] ==> argv[4] == SigningFlag + render(profiles))
            && (forall i :: 0 <= i < |argv| ==> (IsSigningArg(argv[i]) <==> profiles != [] && i == 4))
  {
    var base := PackageArgs(templateFileName);
    var argv := if profiles != [] then base + [SigningFlag + render(profiles)] else base;
    Packaging(Run([List(argv)]), OutputTemplate)
  }

  /**
    Across the two steps: the packaging call carries a signing directive exactly
    when the template has at least one Function or LayerVersion.
   */
  lemma SigningDirectiveIffResources(config: Config, functions: Dict<Resource>, layers: Dict<Resource>,
                                     render: seq<char> -> string)
    ensures var profiles := Fragments(Keys(Union(functions, layers)), config.signingProfileName);
            var argv := SignResources(config.templateFileName, profiles, render).command.positional[0].items;
            functions != [] || layers != [] ==> exists i :: 0 <= i < |argv| && IsSigningArg(argv[i])
    ensures var profiles := Fragments(Keys(Union(functions, layers)), config.signingProfileName);
            var argv := SignResources(config.templateFileName, profiles, render).command.positional[0].items;
            functions == [] && layers == [] ==> forall i :: 0 <= i < |argv| ==> !IsSigningArg(argv[i])
  {
    var resources := Union(functions, layers);
    var profiles := Fragments(Keys(resources), config.signingProfileName);
    var argv := SignResources(config.templateFileName, profiles, render).command.positional[0].items;
    if functions != [] || layers != [] {
      assert resources != [] && Keys(resources) != [];
      assert profiles != [];
      assert |argv| == 5 && IsSigningArg(argv[4]);
      assert exists i :: 0 <= i < |argv| && IsSigningArg(argv[i]);
      assert argv == SignResources(config.templateFileName,
                                   Fragments(Keys(Union(functions, layers)), config.signingProfileName),
                                   render).command.positional[0].items;
    } else {
      assert resources == [] && Keys(resources) == [];
      assert profiles == [];
      forall i | 0 <= i < |argv| ensures !IsSigningArg(argv[i]) { }
    }
  }

  // ---------------------------------------------------------------------------
  // Provenance metadata
  // ---------------------------------------------------------------------------

  /** The provenance keys in their fixed order; the build provenance uses the first six. */
  const ProvenanceKeys := ["repository", "commitsha", "committag", "commitmessage", "commitauthor",
                           "release", "mergetime", "skipcanary", "codepipeline-artifact-revision-summary"]

  /** The six build-provenance entries, in their fixed order. */
  function BuildProvenance(config: Config): seq<(string, string)>
  {
    [("repository", config.repository),
     ("commitsha", config.commitSha),
     ("committag", config.commitTag),
     ("commitmessage", config.commitMessage),
     ("commitauthor", config.githubActor),
     ("release", config.versionNumber)]
  }

  /**
    The nine release-provenance entries: the build provenance, then the merge
    time, the canary switch and a revision summary that repeats the release.
   */
  function ReleaseProvenance(config: Config): (pairs: seq<(string, string)>)
    ensures |pairs| == 9
    ensures pairs[..6] == BuildProvenance(config)
    ensures pairs[6] == ("mergetime", config.mergeTime) && pairs[7] == ("skipcanary", config.skipCanary)
    ensures pairs[8] == ("codepipeline-artifact-revision-summary", pairs[5].1)
  {
    [("repository", config.repository),
     ("commitsha", config.commitSha),
     ("committag", config.commitTag),
     ("commitmessage", config.commitMessage),
     ("commitauthor", config.githubActor),
     ("release", config.versionNumber),
     ("mergetime", config.mergeTime),
     ("skipcanary", config.skipCanary),
     ("codepipeline-artifact-revision-summary", config.versionNumber)]
  }

  function Entries(pairs: seq<(string, string)>): (entries: seq<string>)
    ensures |entries| == |pairs|
  {
    seq(|pairs|, i requires 0 <= i < |pairs| => pairs[i].0 + "=" + pairs[i].1)
  }

  /** `','.join` of the `key=value` entries. */
  function Serialise(pairs: seq<(string, string)>): string
  {
    Join(Entries(pairs), ',')
  }

  /** The build metadata: the six build-provenance entries joined by commas. */
  function BuildMetadata(config: Config): string
  {
    Serialise(BuildProvenance(config))
  }

  /** The release metadata: the nine release-provenance entries joined by commas. */
  function ReleaseMetadata(config: Config): string
  {
    Serialise(ReleaseProvenance(config))
  }

  /** How a metadata value is read: comma-separated entries, each cut at its first `=`. */
  function ParseMetadata(s: string): (pairs: seq<(string, string)>)
    ensures |pairs| == Count(s, ',') + 1
  {
    var pieces := Split(s, ',');
    seq(|pieces|, i requires 0 <= i < |pieces| => SplitOnce(pieces[i], '='))
  }

  /** A provenance key: lower-case letters and dashes only. */
  predicate Word(k: string)
  {
    forall j :: 0 <= j < |k| ==> 'a' <= k[j] <= 'z' || k[j] == '-'
  }

  /** The six build-provenance keys are plain words. */
  lemma BuildKeysAreWords(i: nat)
    requires i < 6
    ensures Word(ProvenanceKeys[i])
  {
    if i == 0 { assert Word("repository"); }
    else if i == 1 { assert Word("commitsha"); }
    else if i == 2 { assert Word("committag"); }
    else if i == 3 { assert Word("commitmessage"); }
    else if i == 4 { assert Word("commitauthor"); }
    else { assert Word("release"); }
  }

  /** The three keys only the release provenance has are plain words. */
  lemma ReleaseKeysAreWords(i: nat)
    requires 6 <= i < 9
    ensures Word(ProvenanceKeys[i])
  {
    if i == 6 { assert Word("mergetime"); }
    else if i == 7 { assert Word("skipcanary"); }
    else { assert Word("codepipeline-artifact-revision-summary"); }
  }

  /** No key of the entries holds a `,` or a `=`. */
  ghost predicate PlainKeys(pairs: seq<(string, string)>)
  {
    forall i :: 0 <= i < |pairs| ==> ',' !in pairs[i].0 && '=' !in pairs[i].0
  }

  /** No value of the entries holds a `,`. */
  ghost predicate CommaFreeValues(pairs: seq<(string, string)>)
  {
    forall i :: 0 <= i < |pairs| ==> ',' !in pairs[i].1
  }

  /** The keys of both provenance lists are plain words: no `,` and no `=`. */
  lemma ProvenanceKeysPlain(config: Config)
    ensures PlainKeys(ReleaseProvenance(config))
    ensures PlainKeys(BuildProvenance(config))
  {
    var pairs := ReleaseProvenance(config);
    forall i | 0 <= i < |pairs| ensures ',' !in pairs[i].0 && '=' !in pairs[i].0 {
      assert pairs[i].0 == ProvenanceKeys[i];
      if i < 6 { BuildKeysAreWords(i); } else { ReleaseKeysAreWords(i); }
      var k := pairs[i].0;
      assert forall j :: 0 <= j < |k| ==> k[j] != ',' && k[j] != '=';
    }
    assert BuildProvenance(config) == pairs[..6];
  }

  /**
    Serialised metadata reads back as the same entries exactly when no value
    contains a comma (keys hold neither `,` nor `=`).
   */
  lemma SerialiseRoundTrip(pairs: seq<(string, string)>)
    requires |pairs| >= 1
    requires PlainKeys(pairs)
    ensures ParseMetadata(Serialise(pairs)) == pairs <==> CommaFreeValues(pairs)
  {
    var entries := Entries(pairs);
    if CommaFreeValues(pairs) {
      forall i | 0 <= i < |entries| ensures ',' !in entries[i] {
        assert entries[i] == pairs[i].0 + "=" + pairs[i].1;
      }
      JoinSplit(entries, ',');
      forall i | 0 <= i < |pairs| ensures SplitOnce(entries[i], '=') == pairs[i] {
        SplitOnceOf(pairs[i].0, pairs[i].1, '=');
      }
    } else {
      var j :| 0 <= j < |pairs| && ',' in pairs[j].1;
      CountJoin(entries, ',', j);
      CountAppend(pairs[j].0 + "=", pairs[j].1, ',');
      assert entries[j] == (pairs[j].0 + "=") + pairs[j].1;
      assert |ParseMetadata(Serialise(pairs))| > |pairs|;
    }
  }

  /** The build values are comma-free exactly when the six configured values are. */
  lemma BuildValuesCommaFree(config: Config)
    ensures CommaFreeValues(BuildProvenance(config))
            <==> ',' !in config.repository && ',' !in config.commitSha && ',' !in config.commitTag
                 && ',' !in config.commitMessage && ',' !in config.githubActor
                 && ',' !in config.versionNumber
  {
    var pairs := BuildProvenance(config);
    assert pairs[0].1 == config.repository && pairs[1].1 == config.commitSha;
    assert pairs[2].1 == config.commitTag && pairs[3].1 == config.commitMessage;
    assert pairs[4].1 == config.githubActor && pairs[5].1 == config.versionNumber;
  }

  /** The release values are comma-free exactly when the build values and the two release-only values are. */
  lemma ReleaseValuesCommaFree(config: Config)
    ensures CommaFreeValues(ReleaseProvenance(config))
            <==> CommaFreeValues(BuildProvenance(config)) && ',' !in config.mergeTime && ',' !in config.skipCanary
  {
    var pairs := ReleaseProvenance(config);
    assert pairs[6].1 == config.mergeTime && pairs[7].1 == config.skipCanary;
    assert pairs[8].1 == pairs[5].1;
    assert forall i :: 0 <= i < 6 ==> pairs[i] == BuildProvenance(config)[i];
  }

  /**
    The build metadata reads back as the six build-provenance entries exactly
    when none of the six configured values contains a comma.
   */
  lemma BuildMetadataRoundTrip(config: Config)
    ensures ParseMetadata(BuildMetadata(config)) == BuildProvenance(config)
            <==> ',' !in config.repository && ',' !in config.commitSha && ',' !in config.commitTag
                 && ',' !in config.commitMessage && ',' !in config.githubActor
                 && ',' !in config.versionNumber
  {
    ProvenanceKeysPlain(config);
    SerialiseRoundTrip(BuildProvenance(config));
    BuildValuesCommaFree(config);
  }

  /**
    The release metadata reads back as the nine release-provenance entries
    exactly when none of the nine values contains a comma.
   */
  lemma ReleaseMetadataRoundTrip(config: Config)
    ensures ParseMetadata(ReleaseMetadata(config)) == ReleaseProvenance(config)
            <==> ',' !in config.repository && ',' !in config.commitSha && ',' !in config.commitTag
                 && ',' !in config.commitMessage && ',' !in config.githubActor
                 && ',' !in config.versionNumber && ',' !in config.mergeTime
                 && ',' !in config.skipCanary
  {
    ProvenanceKeysPlain(config);
    SerialiseRoundTrip(ReleaseProvenance(config));
    ReleaseValuesCommaFree(config);
    BuildValuesCommaFree(config);
  }

  /** The release metadata text starts with the whole build metadata text and a comma. */
  lemma ReleaseExtendsBuild(config: Config)
    ensures ReleaseMetadata(config)
            == BuildMetadata(config) + [','] + Serialise(ReleaseProvenance(config)[6..])
  {
    var pairs := ReleaseProvenance(config);
    assert Entries(pairs) == Entries(pairs[..6]) + Entries(pairs[6..]);
    JoinAppend(Entries(pairs[..6]), Entries(pairs[6..]), ',');
  }

  // ---------------------------------------------------------------------------
  // Per-artifact provenance tagging
  // ---------------------------------------------------------------------------

  const CopyPrefix := "aws s3 cp "

  /**
    `aws s3 cp <uri> <uri> --metadata <metadata>`: overwrite an object's
    metadata in place. The call is one list of two strings, the second of which
    is the metadata directive.
   */
  function CopyCommand(uri: string, metadata: string): (c: Run)
    ensures |c.positional| == 1 && c.positional[0].List? && |c.positional[0].items| == 2
    ensures c.positional[0].items[1] == MetadataFlag + metadata
  {
    Run([List([CopyPrefix + uri + " " + uri, MetadataFlag + metadata])])
  }

  /**
    A copy command names exactly one object, as both its source and its
    destination, and exactly one metadata string.
   */
  lemma CopyCommandInjective(u1: string, m1: string, u2: string, m2: string)
    ensures CopyCommand(u1, m1) == CopyCommand(u2, m2) <==> u1 == u2 && m1 == m2
  {
    if CopyCommand(u1, m1) == CopyCommand(u2, m2) {
      var c1, c2 := CopyCommand(u1, m1).positional[0].items, CopyCommand(u2, m2).positional[0].items;
      assert c1 == c2;
      assert |c1[0]| == |CopyPrefix| + 2 * |u1| + 1;
      assert |c2[0]| == |CopyPrefix| + 2 * |u2| + 1;
      assert u1 == c1[0][|CopyPrefix|..|CopyPrefix| + |u1|];
      assert u2 == c2[0][|CopyPrefix|..|CopyPrefix| + |u2|];
      assert m1 == c1[1][|MetadataFlag|..];
      assert m2 == c2[1][|MetadataFlag|..];
    }
  }

  /** A command that copies some object onto itself with the given metadata. */
  ghost predicate IsSelfCopy(c: Run, metadata: string)
  {
    exists uri :: c == CopyCommand(uri, metadata)
  }

  /** The index of the first resource without the location property, or the count. */
  function FirstMissing(d: seq<(string, Resource)>, property: string): (n: nat)
    ensures n <= |d|
    ensures forall i :: 0 <= i < n ==> Location(d[i].1, property).Some?
    ensures n < |d| ==> Location(d[n].1, property).None?
  {
    if |d| == 0 || Location(d[0].1, property).None? then 0
    else 1 + FirstMissing(d[1..], property)
  }

  /**
    What a tagging loop issues: the copy commands in order, and the logical id
    whose missing location raised the KeyError that ended the loop, if any.
   */
  datatype Tagging = Tagging(commands: seq<Run>, missing: Option<string>)

  /**
    One tagging loop over a resource map: a copy of each resource's location,
    in order, up to the first resource without one, whose id is then reported.
   */
  function Tag(d: seq<(string, Resource)>, property: string, metadata: string): (t: Tagging)
    ensures |t.commands| <= |d|
    ensures t.missing.Some? <==> exists i :: 0 <= i < |d| && Location(d[i].1, property).None?
    ensures t.missing.Some? ==> |t.commands| < |d| && t.missing == Some(d[|t.commands|].0)
                                && Location(d[|t.commands|].1, property).None?
    ensures forall i :: 0 <= i < |t.commands| ==>
              && Location(d[i].1, property).Some?
              && t.commands[i] == CopyCommand(Location(d[i].1, property).value, metadata)
  {
    var n := FirstMissing(d, property);
    Tagging(seq(n, i requires 0 <= i < n => CopyCommand(Location(d[i].1, property).value, metadata)),
            if n < |d| then Some(d[n].0) else None)
  }

  /**
    Both loops: functions by `CodeUri`, then, if that loop finished, layers by
    `ContentUri`, all with the one build-metadata string.
   */
  function ProvenancePlan(config: Config, functions: Dict<Resource>, layers: Dict<Resource>): (t: Tagging)
    ensures |t.commands| <= |functions| + |layers|
    ensures t.missing.None? ==> |t.commands| == |functions| + |layers|
  {
    var metadata := BuildMetadata(config);
    var f := Tag(functions, CodeUriProperty, metadata);
    if f.missing.Some? then f
    else
      var l := Tag(layers, ContentUriProperty, metadata);
      Tagging(f.commands + l.commands, l.missing)
  }

  /**
    One tagging loop: a self-copy of each resource's location, in order, until
    a resource without the location property raises a KeyError.
   */
  method TagEach(d: Dict<Resource>, property: string, metadata: string)
    returns (commands: seq<Run>, missing: Option<string>)
    ensures Tagging(commands, missing) == Tag(d, property, metadata)
  {
    commands := [];
    missing := None;
    for i := 0 to |d|
      invariant |commands| == i
      invariant forall j :: 0 <= j < i ==> Location(d[j].1, property).Some?
      invariant forall j :: 0 <= j < i ==>
                  commands[j] == CopyCommand(Location(d[j].1, property).value, metadata)
    {
      var uri := Location(d[i].1, property);
      if uri.None? {
        missing := Some(d[i].0);
        assert FirstMissing(d, property) == i;
        return;
      }
      commands := commands + [CopyCommand(uri.value, metadata)];
    }
    assert FirstMissing(d, property) == |d|;
  }

  /**
    Build-provenance tagging: one self-copy per Function `CodeUri`, then one per
    LayerVersion `ContentUri`. No exit status is read, so the commands recorded
    do not depend on one another; a resource without its location property
    raises a KeyError and ends the run there, before any layer when it is a
    function.
   */
  method LambdaProvenance(config: Config, functions: Dict<Resource>, layers: Dict<Resource>)
    returns (commands: seq<Run>, missing: Option<string>)
    ensures Tagging(commands, missing) == ProvenancePlan(config, functions, layers)
  {
    var metadata := BuildMetadata(config);
    commands, missing := TagEach(functions, CodeUriProperty, metadata);
    if missing.Some? {
      return;
    }
    var layerCommands;
    layerCommands, missing := TagEach(layers, ContentUriProperty, metadata);
    commands := commands + layerCommands;
  }

  /**
    When every resource has its location, tagging issues exactly
    |functions| + |layers| commands, all functions before all layers, each a
    self-copy of the resource's location carrying the same build metadata.
   */
  lemma TaggingComplete(config: Config, functions: Dict<Resource>, layers: Dict<Resource>)
    requires forall i :: 0 <= i < |functions| ==> Location(functions[i].1, CodeUriProperty).Some?
    requires forall i :: 0 <= i < |layers| ==> Location(layers[i].1, ContentUriProperty).Some?
    ensures var t := ProvenancePlan(config, functions, layers);
            && t.missing == None
            && |t.commands| == |functions| + |layers|
            && (forall i :: 0 <= i < |functions| ==>
                  t.commands[i] == CopyCommand(Location(functions[i].1, CodeUriProperty).value,
                                               BuildMetadata(config)))
            && (forall i :: 0 <= i < |layers| ==>
                  t.commands[|functions| + i] == CopyCommand(Location(layers[i].1, ContentUriProperty).value,
                                                             BuildMetadata(config)))
  {
  }

  /**
    Tagging stops early exactly when some resource lacks its location; the id
    reported is that of the first such function, or, when every function has
    one, of the first such layer; the commands issued are the copies of the
    resources before it, in order, each carrying the build metadata.
   */
  lemma TaggingStops(config: Config, functions: Dict<Resource>, layers: Dict<Resource>)
    ensures var t := ProvenancePlan(config, functions, layers);
            t.missing.Some? <==>
              (exists i :: 0 <= i < |functions| && Location(functions[i].1, CodeUriProperty).None?)
              || (exists i :: 0 <= i < |layers| && Location(layers[i].1, ContentUriProperty).None?)
    ensures var t := ProvenancePlan(config, functions, layers);
            var nf := FirstMissing(functions, CodeUriProperty);
            nf < |functions| ==>
              && t.missing == Some(functions[nf].0)
              && |t.commands| == nf
              && forall i :: 0 <= i < nf ==>
                   t.commands[i] == CopyCommand(Location(functions[i].1, CodeUriProperty).value,
                                                BuildMetadata(config))
    ensures var t := ProvenancePlan(config, functions, layers);
            var nl := FirstMissing(layers, ContentUriProperty);
            FirstMissing(functions, CodeUriProperty) == |functions| && nl < |layers| ==>
              && t.missing == Some(layers[nl].0)
              && |t.commands| == |functions| + nl
              && (forall i :: 0 <= i < |functions| ==>
                    t.commands[i] == CopyCommand(Location(functions[i].1, CodeUriProperty).value,
                                                 BuildMetadata(config)))
              && (forall i :: 0 <= i < nl ==>
                    t.commands[|functions| + i]
                    == CopyCommand(Location(layers[i].1, ContentUriProperty).value, BuildMetadata(config)))
    ensures var t := ProvenancePlan(config, functions, layers);
            forall i :: 0 <= i < |t.commands| ==> IsSelfCopy(t.commands[i], BuildMetadata(config))
  {
  }

  // ---------------------------------------------------------------------------
  // Release upload
  // ---------------------------------------------------------------------------

  /** The object the zipped template is uploaded to. */
  function Destination(bucket: string): string
  {
    "s3://" + bucket + "/" + Archive
  }

  /**
    Zip the packaged template, then upload the archive to the artifact bucket.
    The release metadata is the second positional argument of the upload call,
    as the script passes it.
   */
  function UploadArtifact(config: Config): (runs: seq<Run>)
    ensures |runs| == 2 && |runs[1].positional| == 2
    ensures runs[0] == Run([Str("zip " + Archive + " " + OutputTemplate)])
    ensures runs[1].positional[1] == Str(MetadataFlag + ReleaseMetadata(config))
    ensures runs[1].positional[0] == Str(CopyPrefix + Archive + " \"" + Destination(config.artifactBucket) + "\"")
  {
    [Run([Str("zip " + Archive + " " + OutputTemplate)]),
     Run([Str(CopyPrefix + Archive + " \"" + Destination(config.artifactBucket) + "\""),
          Str(MetadataFlag + ReleaseMetadata(config))])]
  }

  /**
    The archive that is uploaded is the one zipped from the template the
    packaging step wrote, whichever shape that step took.
   */
  lemma UploadShipsPackagedTemplate(config: Config, profiles: seq<char>, render: seq<char> -> string)
    ensures var runs := UploadArtifact(config);
            var packaged := SignResources(config.templateFileName, profiles, render).outputTemplate;
            && runs[0] == Run([Str("zip " + Archive + " " + packaged)])
            && runs[1].positional[0] == Str(CopyPrefix + Archive + " \"s3://" + config.artifactBucket + "/" + Archive + "\"")
  {
  }

  /**
    The upload call's second positional argument holds the release provenance:
    read back, its metadata gives the
    nine release entries, whose first six are the build entries every artifact
    was tagged with and whose revision summary repeats the release.
   */
  lemma UploadCarriesReleaseProvenance(config: Config)
    requires ',' !in config.repository && ',' !in config.commitSha && ',' !in config.commitTag
    requires ',' !in config.commitMessage && ',' !in config.githubActor && ',' !in config.versionNumber
    requires ',' !in config.mergeTime && ',' !in config.skipCanary
    ensures var runs := UploadArtifact(config);
            exists metadata ::
              && runs[1].positional[1] == Str(MetadataFlag + metadata)
              && ParseMetadata(metadata) == ReleaseProvenance(config)
              && ParseMetadata(metadata)[..6] == ParseMetadata(BuildMetadata(config))
              && ParseMetadata(metadata)[8].1 == config.versionNumber
  {
    ReleaseMetadataRoundTrip(config);
    BuildMetadataRoundTrip(config);
    var metadata := ReleaseMetadata(config);
    assert UploadArtifact(config)[1].positional[1] == Str(MetadataFlag + metadata);
  }
}
