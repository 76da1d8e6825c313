/** The deployer: deployments are directories directly under a deploy root,
    each holding `main.<ext>`, an optional `metadata.json` and a `README.md`.
    The root is an in-memory map from entry names to entries. The clock, the
    creation times, the JSON text format and I/O failures enter as values. */
module Deployer {
  import opened Seqs
  import opened Strings
  import opened Paths
  import Executor

  const DefaultDeployPath: string := "/tmp/gptbuilder_deployments"
  const MetadataFile: string := "metadata.json"
  const ReadmeFile: string := "README.md"

  /** Metadata as `dict.items()`: keys and the text of their values, in order. */
  type Metadata = seq<(string, string)>

  /** The contents of a file: text, or the JSON object `deploy_code` wrote. */
  datatype FileData = Text(text: string) | Json(entries: Metadata)

  /** An entry of the deploy root: a deployment directory (a flat map of file
      names to contents) or a plain file. */
  datatype Entry = Directory(files: map<string, FileData>) | PlainFile(data: FileData)

  type Root = map<string, Entry>

  /** An error raised at one step of `deploy_code`, with its text. `write_text`
      opens its file with mode "w", which empties it, before writing: `left` is
      `None` for an error raised before the file is opened, and `Some(text)` for
      one raised after (a full disk, an encoding error), with `text` what the
      file holds at that moment. */
  datatype DeployFault =
    | NoFault
    | FailMkdir(message: string)
    | FailWriteMain(message: string, left: Option<string>)
    | FailWriteMetadata(message: string, left: Option<string>)
    | FailWriteReadme(message: string, left: Option<string>)

  predicate IsWriteFault(fault: DeployFault)
  {
    fault.FailWriteMain? || fault.FailWriteMetadata? || fault.FailWriteReadme?
  }

  datatype DeployResult =
    | Deployed(deploymentName: string, deploymentPath: string, codeFile: string)
    | DeployFailed(deploymentName: string, error: string)

  /** The arguments of one `deploy_code` call; `timestamp` is the
      `YYYYMMDD_HHMMSS` text of the clock. */
  datatype Request = Request(code: string, name: string, language: string, metadata: Metadata, timestamp: string)

  /** One entry of the listing. */
  datatype DeploymentInfo = DeploymentInfo(name: string, path: string, created: string, metadata: Metadata)

  // ---------------------------------------------------------------- naming

  function DeploymentName(name: string, timestamp: string): string
  {
    name + "_" + timestamp
  }

  /** With timestamps of one fixed width, the directory name determines both the
      deployment name and the timestamp. */
  lemma DeploymentNameInjective(n1: string, t1: string, n2: string, t2: string)
    requires |t1| == |t2|
    requires DeploymentName(n1, t1) == DeploymentName(n2, t2)
    ensures n1 == n2 && t1 == t2
  {
    var d := DeploymentName(n1, t1);
    assert |n1| == |n2|;
    assert n1 == d[..|n1|] && n2 == d[..|n2|];
    assert t1 == d[|n1| + 1..] && t2 == d[|n2| + 1..];
  }

  /** A directory name built from a separator-free name is a plain name. */
  lemma DeploymentNamePlain(name: string, timestamp: string)
    requires '/' !in name && '/' !in timestamp
    ensures PlainName(DeploymentName(name, timestamp))
  {
    var d := DeploymentName(name, timestamp);
    assert d[|name|] == '_';
  }

  function MainFileName(language: string): (file: string)
    ensures file != MetadataFile && file != ReadmeFile
  {
    var file := "main." + Executor.Extension(language);
    assert file[1] == 'a' != MetadataFile[1];
    assert file[0] == 'm' != ReadmeFile[0];
    file
  }

  // ---------------------------------------------------------------- README

  function MetadataLine(entry: (string, string)): string
  {
    "- **" + entry.0 + "**: " + entry.1
  }

  /** One `- **key**: value` line per entry, each ended by a newline. */
  function MetadataLines(metadata: Metadata): string
    decreases |metadata|
  {
    if |metadata| == 0 then "" else MetadataLine(metadata[0]) + "\n" + MetadataLines(metadata[1..])
  }

  function ReadmeTitle(name: string): string
  {
    "# " + name + "\n"
  }

  const ReadmeIntro: string := "\nAutomatically generated and deployed by GPTbuilderauto\n\n"

  function LanguageSection(language: string): string
  {
    "## Language\n" + language + "\n"
  }

  function DeploymentSection(deployedAt: string): string
  {
    "\n## Deployment Information\n- Deployed: " + deployedAt + "\n"
  }

  /** The metadata heading and lines; nothing at all for empty metadata. */
  function MetadataSection(metadata: Metadata): (section: string)
    ensures section == "" <==> |metadata| == 0
  {
    if |metadata| > 0 then "\n## Metadata\n" + MetadataLines(metadata) else ""
  }

  const ReadmeFooter: string :=
    "\n## Usage\nRun the main file to execute the code.\n\n---\n"
    + "*Generated by GPTbuilderauto - Autonomous code creation, execution, deployment, and maintenance*\n"

  /** The part of the README before the metadata section. */
  function ReadmeHead(name: string, language: string, deployedAt: string): string
  {
    ReadmeTitle(name) + ReadmeIntro + LanguageSection(language) + DeploymentSection(deployedAt)
  }

  /** The README text `_generate_readme` builds. */
  function ReadmeText(name: string, language: string, metadata: Metadata, deployedAt: string): string
  {
    ReadmeTitle(name)
    + (ReadmeIntro
       + (LanguageSection(language)
          + (DeploymentSection(deployedAt) + (MetadataSection(metadata) + ReadmeFooter))))
  }

  lemma {:induction false} MetadataLinesSnoc(metadata: Metadata, entry: (string, string))
    ensures MetadataLines(metadata + [entry]) == MetadataLines(metadata) + MetadataLine(entry) + "\n"
    decreases |metadata|
  {
    if |metadata| == 0 {
      assert metadata + [entry] == [entry];
    } else {
      assert (metadata + [entry])[1..] == metadata[1..] + [entry];
      MetadataLinesSnoc(metadata[1..], entry);
    }
  }

  predicate SingleLineEntries(metadata: Metadata)
  {
    forall i :: 0 <= i < |metadata| ==> '\n' !in metadata[i].0 && '\n' !in metadata[i].1
  }

  /** The metadata section splits into exactly one line per entry, in order
      (followed by the empty piece after the last newline). */
  lemma {:induction false} MetadataOneLinePerEntry(metadata: Metadata)
    requires SingleLineEntries(metadata)
    ensures Split(MetadataLines(metadata), '\n')
            == seq(|metadata|, i requires 0 <= i < |metadata| => MetadataLine(metadata[i])) + [""]
    decreases |metadata|
  {
    if |metadata| > 0 {
      var line := MetadataLine(metadata[0]);
      assert line == "- **" + metadata[0].0 + "**: " + metadata[0].1;
      assert '\n' !in line;
      assert SingleLineEntries(metadata[1..]) by {
        forall i | 0 <= i < |metadata[1..]|
          ensures '\n' !in metadata[1..][i].0 && '\n' !in metadata[1..][i].1
        {
          assert metadata[1..][i] == metadata[i + 1];
        }
      }
      MetadataOneLinePerEntry(metadata[1..]);
      SplitAfterPiece(line, '\n', MetadataLines(metadata[1..]));
    }
  }

  /** The README is its parts in order. */
  lemma ReadmeAssembly(name: string, language: string, metadata: Metadata, deployedAt: string)
    ensures ReadmeText(name, language, metadata, deployedAt)
            == ReadmeHead(name, language, deployedAt) + MetadataSection(metadata) + ReadmeFooter
  {
    var t, i, l, d, m, f := ReadmeTitle(name), ReadmeIntro, LanguageSection(language),
                            DeploymentSection(deployedAt), MetadataSection(metadata), ReadmeFooter;
    ConcatAssoc(m, f, "");
    ConcatAssoc(d, m, f);
    ConcatAssoc(l, d, m + f);
    ConcatAssoc(l + d, m, f);
    ConcatAssoc(i, l, d + (m + f));
    ConcatAssoc(i, l + d, m + f);
    ConcatAssoc(i + l, d, m + f);
    ConcatAssoc(t, i, l + (d + (m + f)));
    ConcatAssoc(t + i, l, d + (m + f));
    ConcatAssoc(t + i + l, d, m + f);
    ConcatAssoc(t + i + l + d, m, f);
  }

  /** The README opens with the deployment's name as its title. */
  lemma ReadmeStartsWithTitle(name: string, language: string, metadata: Metadata, deployedAt: string)
    ensures StartsWith(ReadmeText(name, language, metadata, deployedAt), "# " + name + "\n")
  {
    var rest := ReadmeIntro
       + (LanguageSection(language)
          + (DeploymentSection(deployedAt) + (MetadataSection(metadata) + ReadmeFooter)));
    assert (ReadmeTitle(name) + rest)[..|ReadmeTitle(name)|] == ReadmeTitle(name);
  }

  /** The README names the language under its own heading. */
  lemma ReadmeNamesLanguage(name: string, language: string, metadata: Metadata, deployedAt: string)
    ensures Contains(ReadmeText(name, language, metadata, deployedAt), "## Language\n" + language + "\n")
  {
    var title, section := ReadmeTitle(name), LanguageSection(language);
    var rest := DeploymentSection(deployedAt) + (MetadataSection(metadata) + ReadmeFooter);
    ConcatAssoc(title, ReadmeIntro, section + rest);
    ContainsMiddle(title + ReadmeIntro, section, rest);
  }

  /** The loop of `_generate_readme` that appends one line per metadata entry, in order. */
  method AppendMetadataLines(prefix: string, metadata: Metadata) returns (text: string)
    ensures text == prefix + MetadataLines(metadata)
  {
    text := prefix;
    var i := 0;
    while i < |metadata|
      invariant 0 <= i <= |metadata|
      invariant text == prefix + MetadataLines(metadata[..i])
    {
      MetadataLinesSnoc(metadata[..i], metadata[i]);
      assert metadata[..i + 1] == metadata[..i] + [metadata[i]];
      ConcatAssoc(prefix, MetadataLines(metadata[..i]), MetadataLine(metadata[i]) + "\n");
      ConcatAssoc(MetadataLines(metadata[..i]), MetadataLine(metadata[i]), "\n");
      ConcatAssoc(text, MetadataLine(metadata[i]), "\n");
      text := text + MetadataLine(metadata[i]) + "\n";
      i := i + 1;
    }
    assert metadata[..i] == metadata;
  }

  // ---------------------------------------------------------------- deploy

  /** `mkdir(parents=True, exist_ok=True)` on `dir`: an existing directory is
      kept, a plain file in the way raises `FileExistsError`. */
  function MakeDirectory(root: Root, name: string, dirText: string): (made: Result<Root, string>)
    ensures made.Err? <==> name in root && root[name].PlainFile?
    ensures made.Ok? ==> made.value.Keys == root.Keys + {name} && made.value[name].Directory?
    ensures made.Ok? && name in root ==> made.value == root
    ensures made.Ok? && name !in root ==> made.value == root[name := Directory(map[])]
  {
    if name in root && root[name].PlainFile? then Err("[Errno 17] File exists: '" + dirText + "'")
    else if name in root then Ok(root)
    else Ok(root[name := Directory(map[])])
  }

  /** `write_text` of one file in the directory `name`, which exists. */
  function WriteFile(root: Root, name: string, file: string, data: FileData): (written: Root)
    requires name in root && root[name].Directory?
    ensures written.Keys == root.Keys && written[name].Directory?
    ensures written[name].files == root[name].files[file := data]
    ensures forall k :: k in root && k != name ==> written[k] == root[k]
  {
    root[name := Directory(root[name].files[file := data])]
  }

  function WriteCount(req: Request): nat
  {
    if |req.metadata| > 0 then 3 else 2
  }

  /** The files `deploy_code` writes into the directory, in order: the code,
      the metadata when there is any, and the README with the given text. */
  function Writes(req: Request, readme: string): (writes: seq<(string, FileData)>)
    ensures |writes| == WriteCount(req)
  {
    var code := (MainFileName(req.language), Text(req.code));
    if |req.metadata| > 0 then [code, (MetadataFile, Json(req.metadata)), (ReadmeFile, Text(readme))]
    else [code, (ReadmeFile, Text(readme))]
  }

  /** How many of those writes complete before `fault` raises; a fault at a
      write that is never attempted does not raise. */
  function Completed(req: Request, fault: DeployFault): (n: nat)
    ensures n <= WriteCount(req)
    ensures n < WriteCount(req) ==> IsWriteFault(fault)
  {
    match fault
    case FailWriteMain(_, _) => 0
    case FailWriteMetadata(_, _) => if |req.metadata| > 0 then 1 else WriteCount(req)
    case FailWriteReadme(_, _) => WriteCount(req) - 1
    case _ => WriteCount(req)
  }

  /** What the writes leave in the directory, in order: the completed writes
      and, when a write raises after opening its file, that file holding what
      had reached it. */
  function Effects(req: Request, readme: string, fault: DeployFault): seq<(string, FileData)>
  {
    var n := Completed(req, fault);
    if n < WriteCount(req) && fault.left.Some? then
      Writes(req, readme)[..n] + [(Writes(req, readme)[n].0, Text(fault.left.value))]
    else Writes(req, readme)[..n]
  }

  /** The files of a directory after `writes`, in order. */
  function WriteAll(files: map<string, FileData>, writes: seq<(string, FileData)>): map<string, FileData>
    decreases |writes|
  {
    if |writes| == 0 then files
    else WriteAll(files, writes[..|writes| - 1])[writes[|writes| - 1].0 := writes[|writes| - 1].1]
  }

  function FileNames(writes: seq<(string, FileData)>): (names: seq<string>)
    ensures |names| == |writes|
    ensures forall i :: 0 <= i < |writes| ==> names[i] == writes[i].0
  {
    seq(|writes|, i requires 0 <= i < |writes| => writes[i].0)
  }

  /** Writing adds exactly the written names; a file nobody writes keeps its contents. */
  lemma {:induction false} WriteAllFiles(files: map<string, FileData>, writes: seq<(string, FileData)>)
    ensures forall f :: f in WriteAll(files, writes) <==> f in files || f in FileNames(writes)
    ensures forall f :: f in files && f !in FileNames(writes) ==> WriteAll(files, writes)[f] == files[f]
    decreases |writes|
  {
    if |writes| > 0 {
      var init := writes[..|writes| - 1];
      WriteAllFiles(files, init);
      assert FileNames(writes) == FileNames(init) + [writes[|writes| - 1].0];
    }
  }

  /** The last write of a name decides its contents. */
  lemma {:induction false} WriteAllLatest(files: map<string, FileData>, writes: seq<(string, FileData)>, i: nat)
    requires i < |writes|
    requires forall j :: i < j < |writes| ==> writes[j].0 != writes[i].0
    ensures writes[i].0 in WriteAll(files, writes) && WriteAll(files, writes)[writes[i].0] == writes[i].1
    decreases |writes|
  {
    if i < |writes| - 1 {
      WriteAllLatest(files, writes[..|writes| - 1], i);
    }
  }

  /** Writes that put only JSON into `metadata.json` keep it readable as JSON. */
  lemma {:induction false} WriteAllKeepsJson(files: map<string, FileData>, writes: seq<(string, FileData)>)
    requires MetadataFile in files ==> files[MetadataFile].Json?
    requires forall i :: 0 <= i < |writes| && writes[i].0 == MetadataFile ==> writes[i].1.Json?
    ensures MetadataFile in WriteAll(files, writes) ==> WriteAll(files, writes)[MetadataFile].Json?
    decreases |writes|
  {
    if |writes| > 0 {
      WriteAllKeepsJson(files, writes[..|writes| - 1]);
    }
  }

  /** `deploy_code` as a function of the deploy root before the call: the new
      root and the result. A failing step leaves what earlier steps wrote, and
      a write that fails after opening its file leaves that file cut short. */
  function Deploy(root: Root, deployPath: string, req: Request, readme: string, fault: DeployFault): (Root, DeployResult)
  {
    var name := DeploymentName(req.name, req.timestamp);
    var dirText := Child(deployPath, name);
    if fault.FailMkdir? then (root, DeployFailed(name, fault.message))
    else
      match MakeDirectory(root, name, dirText)
      case Err(e) => (root, DeployFailed(name, e))
      case Ok(made) =>
        var n := Completed(req, fault);
        (made[name := Directory(WriteAll(made[name].files, Effects(req, readme, fault)))],
         if n == WriteCount(req) then Deployed(name, dirText, Child(dirText, MainFileName(req.language)))
         else DeployFailed(name, fault.message))
  }

  /** The files are written in the order code, metadata, README. */
  lemma WritesOrder(req: Request, readme: string)
    ensures Writes(req, readme)[0] == (MainFileName(req.language), Text(req.code))
    ensures |req.metadata| > 0 ==> Writes(req, readme)[1] == (MetadataFile, Json(req.metadata))
    ensures Writes(req, readme)[WriteCount(req) - 1] == (ReadmeFile, Text(readme))
    ensures forall i, j :: 0 <= i < j < WriteCount(req) ==> Writes(req, readme)[i].0 != Writes(req, readme)[j].0
  {
  }

  /** `Deploy` past a successful `mkdir`: the directory holds what the writes
      left, and the call succeeds exactly when every write completed. */
  lemma DeployAfterMkdir(root: Root, deployPath: string, req: Request, readme: string, fault: DeployFault)
    requires !fault.FailMkdir?
    requires var name := DeploymentName(req.name, req.timestamp); name !in root || root[name].Directory?
    ensures var name := DeploymentName(req.name, req.timestamp);
      var made := MakeDirectory(root, name, Child(deployPath, name));
      var n := Completed(req, fault);
      && made.Ok?
      && Deploy(root, deployPath, req, readme, fault).0
         == made.value[name := Directory(WriteAll(made.value[name].files, Effects(req, readme, fault)))]
      && (n == WriteCount(req) ==>
            Deploy(root, deployPath, req, readme, fault).1
            == Deployed(name, Child(deployPath, name), Child(Child(deployPath, name), MainFileName(req.language))))
      && (n < WriteCount(req) ==> Deploy(root, deployPath, req, readme, fault).1 == DeployFailed(name, fault.message))
  {
  }

  /** A write that raises after opening its file leaves that file holding `data`. */
  lemma WriteCut(made: Root, name: string, files: map<string, FileData>, writes: seq<(string, FileData)>, k: nat,
                 data: FileData)
    requires name in made && k < |writes|
    ensures WriteFile(made[name := Directory(WriteAll(files, writes[..k]))], name, writes[k].0, data)
            == made[name := Directory(WriteAll(files, writes[..k] + [(writes[k].0, data)]))]
  {
    assert (writes[..k] + [(writes[k].0, data)])[..k] == writes[..k];
  }

  /** One more write extends the writes done so far. */
  lemma WriteNext(made: Root, name: string, files: map<string, FileData>, writes: seq<(string, FileData)>, k: nat)
    requires name in made && k < |writes|
    ensures WriteFile(made[name := Directory(WriteAll(files, writes[..k]))], name, writes[k].0, writes[k].1)
            == made[name := Directory(WriteAll(files, writes[..k + 1]))]
  {
    assert writes[..k + 1][..k] == writes[..k];
  }

  /** Whatever happens, the result carries the directory name, and only that
      entry of the root can change. */
  lemma DeployFrame(root: Root, deployPath: string, req: Request, readme: string, fault: DeployFault)
    ensures Deploy(root, deployPath, req, readme, fault).1.deploymentName == DeploymentName(req.name, req.timestamp)
    ensures Deploy(root, deployPath, req, readme, fault).0.Keys <= root.Keys + {DeploymentName(req.name, req.timestamp)}
    ensures forall k :: k in root && k != DeploymentName(req.name, req.timestamp) ==>
              k in Deploy(root, deployPath, req, readme, fault).0 && Deploy(root, deployPath, req, readme, fault).0[k] == root[k]
  {
  }

  /** Deploying without a fault into a name that is not a plain file succeeds
      and leaves the code file, the README and, for non-empty metadata, the
      metadata file; the files of an existing directory are otherwise kept,
      an old `metadata.json` among them when the metadata is empty. */
  lemma DeployLayout(root: Root, deployPath: string, req: Request, readme: string)
    requires var name := DeploymentName(req.name, req.timestamp); name !in root || root[name].Directory?
    ensures var name := DeploymentName(req.name, req.timestamp);
      var (after, r) := Deploy(root, deployPath, req, readme, NoFault);
      var dirText := Child(deployPath, name);
      && r == Deployed(name, dirText, Child(dirText, MainFileName(req.language)))
      && after.Keys == root.Keys + {name}
      && after[name].Directory?
      && MainFileName(req.language) in after[name].files && ReadmeFile in after[name].files
      && after[name].files[MainFileName(req.language)] == Text(req.code)
      && after[name].files[ReadmeFile] == Text(readme)
      && (|req.metadata| > 0 ==>
            MetadataFile in after[name].files && after[name].files[MetadataFile] == Json(req.metadata))
      && (forall f :: f in after[name].files ==>
            f in {MainFileName(req.language), MetadataFile, ReadmeFile}
            || (name in root && f in root[name].files && after[name].files[f] == root[name].files[f]))
      && (|req.metadata| == 0 ==>
            (MetadataFile in after[name].files <==> name in root && MetadataFile in root[name].files)
            && (MetadataFile in after[name].files ==> after[name].files[MetadataFile] == root[name].files[MetadataFile]))
      && (name in root ==> forall f :: f in root[name].files && f !in {MainFileName(req.language), MetadataFile, ReadmeFile} ==>
            f in after[name].files && after[name].files[f] == root[name].files[f])
  {
    var name := DeploymentName(req.name, req.timestamp);
    DeployAfterMkdir(root, deployPath, req, readme, NoFault);
    var made := MakeDirectory(root, name, Child(deployPath, name)).value;
    var writes := Writes(req, readme);
    TakeAll(writes);
    WritesOrder(req, readme);
    WriteAllFiles(made[name].files, writes);
    WriteAllLatest(made[name].files, writes, 0);
    WriteAllLatest(made[name].files, writes, |writes| - 1);
    if |req.metadata| > 0 {
      WriteAllLatest(made[name].files, writes, 1);
    }
  }

  /** In a fresh directory, `metadata.json` exists exactly when there is metadata,
      and nothing but those files exists. */
  lemma DeployFreshDirectory(root: Root, deployPath: string, req: Request, readme: string)
    requires DeploymentName(req.name, req.timestamp) !in root
    ensures var after := Deploy(root, deployPath, req, readme, NoFault).0;
      var name := DeploymentName(req.name, req.timestamp);
      && name in after && after[name].Directory?
      && (MetadataFile in after[name].files <==> |req.metadata| > 0)
      && after[name].files.Keys <= {MainFileName(req.language), MetadataFile, ReadmeFile}
  {
    var name := DeploymentName(req.name, req.timestamp);
    var writes := Writes(req, readme);
    TakeAll(writes);
    WriteAllFiles(map[], writes);
    DeployLayout(root, deployPath, req, readme);
  }

  /** Redeploying into an existing directory does not fail on `mkdir`: the code
      file is overwritten and no entry of the root appears or disappears. */
  lemma RedeployOverwrites(root: Root, deployPath: string, req: Request, readme: string)
    requires DeploymentName(req.name, req.timestamp) in root
    requires root[DeploymentName(req.name, req.timestamp)].Directory?
    ensures var (after, r) := Deploy(root, deployPath, req, readme, NoFault);
      && r.Deployed?
      && after.Keys == root.Keys
      && after[DeploymentName(req.name, req.timestamp)].Directory?
      && MainFileName(req.language) in after[DeploymentName(req.name, req.timestamp)].files
      && after[DeploymentName(req.name, req.timestamp)].files[MainFileName(req.language)] == Text(req.code)
  {
    DeployLayout(root, deployPath, req, readme);
  }

  /** A plain file in the way fails the deployment and changes nothing. */
  lemma DeployBlockedByFile(root: Root, deployPath: string, req: Request, readme: string, fault: DeployFault)
    requires DeploymentName(req.name, req.timestamp) in root
    requires root[DeploymentName(req.name, req.timestamp)].PlainFile?
    ensures Deploy(root, deployPath, req, readme, fault).0 == root
    ensures Deploy(root, deployPath, req, readme, fault).1.DeployFailed?
  {
  }

  // ---------------------------------------------------------------- listing

  predicate IsDeployment(root: Root, name: string)
  {
    name in root && root[name].Directory?
  }

  function DeploymentNames(root: Root): set<string>
  {
    set name | name in root && root[name].Directory?
  }

  /** The metadata `list_deployments` reads for a directory, with `None` where
      `json.loads` raises. */
  function ReadMetadata(files: map<string, FileData>): Option<Metadata>
  {
    if MetadataFile !in files then Some([])
    else match files[MetadataFile]
      case Json(entries) => Some(entries)
      case Text(_) => None
  }

  /** Every metadata file of the root can be read. */
  predicate Readable(root: Root)
  {
    forall name :: name in root && root[name].Directory? ==> ReadMetadata(root[name].files).Some?
  }

  /** What the listing says about one deployment. */
  predicate Describes(root: Root, deployPath: string, created: string -> string, info: DeploymentInfo)
  {
    && IsDeployment(root, info.name)
    && info.path == Child(deployPath, info.name)
    && info.created == created(info.name)
    && ReadMetadata(root[info.name].files) == Some(info.metadata)
  }

  function Names(listing: seq<DeploymentInfo>): (names: seq<string>)
    ensures |names| == |listing|
    ensures forall i :: 0 <= i < |listing| ==> names[i] == listing[i].name
  {
    seq(|listing|, i requires 0 <= i < |listing| => listing[i].name)
  }

  /** Unless writing `metadata.json` itself breaks off after opening it,
      `deploy_code` leaves only metadata files that can be read back. */
  lemma DeployKeepsReadable(root: Root, deployPath: string, req: Request, readme: string, fault: DeployFault)
    requires Readable(root)
    requires !(fault.FailWriteMetadata? && fault.left.Some?)
    ensures Readable(Deploy(root, deployPath, req, readme, fault).0)
  {
    var name := DeploymentName(req.name, req.timestamp);
    var after := Deploy(root, deployPath, req, readme, fault).0;
    DeployFrame(root, deployPath, req, readme, fault);
    if !fault.FailMkdir? && MakeDirectory(root, name, Child(deployPath, name)).Ok? {
      var made := MakeDirectory(root, name, Child(deployPath, name)).value;
      var writes := Effects(req, readme, fault);
      WritesOrder(req, readme);
      assert forall i :: 0 <= i < |writes| && writes[i].0 == MetadataFile ==> writes[i].1.Json?;
      WriteAllKeepsJson(made[name].files, writes);
    }
  }

  /** A write that breaks off after opening its file fails the deploy and
      leaves that file holding what had reached it; the writes before it are
      complete. */
  lemma InterruptedWrite(root: Root, deployPath: string, req: Request, readme: string, fault: DeployFault)
    requires IsWriteFault(fault) && fault.left.Some? && Completed(req, fault) < WriteCount(req)
    requires var name := DeploymentName(req.name, req.timestamp); name !in root || root[name].Directory?
    ensures var name := DeploymentName(req.name, req.timestamp);
      var (after, r) := Deploy(root, deployPath, req, readme, fault);
      var n := Completed(req, fault);
      var writes := Writes(req, readme);
      && r == DeployFailed(name, fault.message)
      && name in after && after[name].Directory?
      && writes[n].0 in after[name].files && after[name].files[writes[n].0] == Text(fault.left.value)
      && (forall i :: 0 <= i < n ==> writes[i].0 in after[name].files && after[name].files[writes[i].0] == writes[i].1)
  {
    var name := DeploymentName(req.name, req.timestamp);
    DeployAfterMkdir(root, deployPath, req, readme, fault);
    var made := MakeDirectory(root, name, Child(deployPath, name)).value;
    var n := Completed(req, fault);
    var writes := Writes(req, readme);
    var effects := Effects(req, readme, fault);
    WritesOrder(req, readme);
    assert |effects| == n + 1 && effects[n] == (writes[n].0, Text(fault.left.value));
    WriteAllLatest(made[name].files, effects, n);
    forall i | 0 <= i < n
      ensures writes[i].0 in WriteAll(made[name].files, effects)
              && WriteAll(made[name].files, effects)[writes[i].0] == writes[i].1
    {
      assert effects[i] == writes[i];
      WriteAllLatest(made[name].files, effects, i);
    }
  }

  /** So a `metadata.json` whose write breaks off after opening it cannot be
      read back, and `list_deployments` stops at that directory. */
  lemma InterruptedMetadataUnreadable(root: Root, deployPath: string, req: Request, readme: string,
                                      message: string, left: string)
    requires |req.metadata| > 0
    requires var name := DeploymentName(req.name, req.timestamp); name !in root || root[name].Directory?
    ensures var name := DeploymentName(req.name, req.timestamp);
      var after := Deploy(root, deployPath, req, readme, FailWriteMetadata(message, Some(left))).0;
      && name in after && after[name].Directory?
      && ReadMetadata(after[name].files).None?
      && !Readable(after)
  {
    WritesOrder(req, readme);
    InterruptedWrite(root, deployPath, req, readme, FailWriteMetadata(message, Some(left)));
  }

  /** A sequence of `deploy_code` calls without faults; `readmeOf` gives the
      README text each call writes. */
  function DeployAll(root: Root, deployPath: string, reqs: seq<Request>, readmeOf: Request -> string): Root
    decreases |reqs|
  {
    if |reqs| == 0 then root
    else
      var last := reqs[|reqs| - 1];
      Deploy(DeployAll(root, deployPath, reqs[..|reqs| - 1], readmeOf), deployPath, last, readmeOf(last), NoFault).0
  }

  /** The directory names of a sequence of calls. */
  function RequestNames(reqs: seq<Request>): (names: seq<string>)
    ensures |names| == |reqs|
    ensures forall i :: 0 <= i < |reqs| ==> names[i] == DeploymentName(reqs[i].name, reqs[i].timestamp)
  {
    seq(|reqs|, i requires 0 <= i < |reqs| => DeploymentName(reqs[i].name, reqs[i].timestamp))
  }

  /** Deploys with distinct directory names into an empty root create exactly
      those directories and nothing else, and every metadata file can be read. */
  lemma {:induction false} DeployAllDirectories(deployPath: string, reqs: seq<Request>, readmeOf: Request -> string)
    requires Distinct(RequestNames(reqs))
    ensures DeployAll(map[], deployPath, reqs, readmeOf).Keys == Elements(RequestNames(reqs))
    ensures DeploymentNames(DeployAll(map[], deployPath, reqs, readmeOf)) == Elements(RequestNames(reqs))
    ensures Readable(DeployAll(map[], deployPath, reqs, readmeOf))
    decreases |reqs|
  {
    var root := DeployAll(map[], deployPath, reqs, readmeOf);
    if |reqs| > 0 {
      var init := reqs[..|reqs| - 1];
      var last := reqs[|reqs| - 1];
      var lastName := DeploymentName(last.name, last.timestamp);
      var before := DeployAll(map[], deployPath, init, readmeOf);
      assert RequestNames(reqs) == RequestNames(init) + [lastName];
      assert Distinct(RequestNames(init));
      DeployAllDirectories(deployPath, init, readmeOf);
      ElementsSnoc(RequestNames(init), lastName);
      assert lastName !in before;
      DeployFreshDirectory(before, deployPath, last, readmeOf(last));
      DeployFrame(before, deployPath, last, readmeOf(last), NoFault);
      DeployKeepsReadable(before, deployPath, last, readmeOf(last), NoFault);
      assert root.Keys == before.Keys + {lastName};
      assert forall k :: k in root ==> root[k].Directory?;
    }
  }

  /** So the listing after deploys with distinct names into an empty root has
      one entry per deployment. */
  lemma DeploysAreListed(deployPath: string, reqs: seq<Request>, readmeOf: Request -> string)
    requires Distinct(RequestNames(reqs))
    ensures Readable(DeployAll(map[], deployPath, reqs, readmeOf))
    ensures |DeploymentNames(DeployAll(map[], deployPath, reqs, readmeOf))| == |reqs|
  {
    DeployAllDirectories(deployPath, reqs, readmeOf);
    DistinctCardinality(RequestNames(reqs));
  }

  /** What a listing gathered over the entries `seen` of the root satisfies. */
  ghost predicate ListedSoFar(root: Root, deployPath: string, created: string -> string,
                              listing: seq<DeploymentInfo>, seen: set<string>)
  {
    && seen <= root.Keys
    && (forall i :: 0 <= i < |listing| ==> Describes(root, deployPath, created, listing[i]) && listing[i].name in seen)
    && Distinct(Names(listing))
    && (Readable(root) ==> Elements(Names(listing)) == DeploymentNames(root) * seen)
  }

  lemma ListingStarts(root: Root, deployPath: string, created: string -> string)
    ensures ListedSoFar(root, deployPath, created, [], {})
  {
  }

  /** A deployment directory whose metadata reads joins the listing. */
  lemma ListingAdds(root: Root, deployPath: string, created: string -> string,
                    listing: seq<DeploymentInfo>, seen: set<string>, item: string)
    requires ListedSoFar(root, deployPath, created, listing, seen)
    requires item in root && item !in seen && root[item].Directory? && ReadMetadata(root[item].files).Some?
    ensures ListedSoFar(root, deployPath, created,
                        listing + [DeploymentInfo(item, Child(deployPath, item), created(item),
                                                  ReadMetadata(root[item].files).value)],
                        seen + {item})
  {
    var info := DeploymentInfo(item, Child(deployPath, item), created(item), ReadMetadata(root[item].files).value);
    var names := Names(listing);
    assert Names(listing + [info]) == names + [item];
    assert item !in names;
    ElementsSnoc(names, item);
  }

  /** A plain file is skipped. */
  lemma ListingSkips(root: Root, deployPath: string, created: string -> string,
                     listing: seq<DeploymentInfo>, seen: set<string>, item: string)
    requires ListedSoFar(root, deployPath, created, listing, seen)
    requires item in root && item !in seen && root[item].PlainFile?
    ensures ListedSoFar(root, deployPath, created, listing, seen + {item})
  {
    assert item !in DeploymentNames(root);
  }

  /** Once every entry is seen, a readable root is listed completely, once per directory. */
  lemma ListingComplete(root: Root, deployPath: string, created: string -> string, listing: seq<DeploymentInfo>)
    requires ListedSoFar(root, deployPath, created, listing, root.Keys)
    ensures forall i :: 0 <= i < |listing| ==> Describes(root, deployPath, created, listing[i])
    ensures Distinct(Names(listing))
    ensures Readable(root) ==> Elements(Names(listing)) == DeploymentNames(root)
    ensures Readable(root) ==> |listing| == |DeploymentNames(root)|
  {
    if Readable(root) {
      DistinctCardinality(Names(listing));
    }
  }

  // ---------------------------------------------------------------- deletion

  /** The root entry a name resolves to, when it resolves to a single entry
      directly below the root. */
  function Target(name: string): Option<string>
  {
    var parts := Components(name);
    if |name| > 0 && name[0] != '/' && |parts| == 1 && parts[0] != ".." then Some(parts[0]) else None
  }

  /** `delete_deployment` restricted to names that stay below the root, as
      written: a name without components ("" or ".") resolves to the root
      itself, which exists, so the whole root is removed. */
  function DeleteAsWritten(root: Root, name: string): (Root, bool)
    requires |name| == 0 || name[0] != '/'
    requires ".." !in Components(name)
  {
    var parts := Components(name);
    if |parts| == 0 then (map[], true)
    else if |parts| == 1 && IsDeployment(root, parts[0]) then (root - {parts[0]}, true)
    else (root, false)
  }

  /** `delete_deployment` as intended: only a deployment directory is removed. */
  function Delete(root: Root, name: string): (out: (Root, bool))
    ensures out.1 <==> Target(name).Some? && IsDeployment(root, Target(name).value)
    ensures out.1 ==> out.0 == root - {Target(name).value}
    ensures !out.1 ==> out.0 == root
  {
    match Target(name)
    case Some(entry) => if IsDeployment(root, entry) then (root - {entry}, true) else (root, false)
    case None => (root, false)
  }

  /** A plain name targets the entry of that name. */
  lemma PlainTarget(name: string)
    requires PlainName(name) && name != ".."
    ensures Target(name) == Some(name)
  {
    PlainNameComponents(name);
  }

  /** Deleting the name a successful deploy returned succeeds, removes that
      directory and nothing else, and the name is no longer listed. */
  lemma DeployThenDelete(root: Root, deployPath: string, req: Request, readme: string)
    requires '/' !in req.name && '/' !in req.timestamp
    requires var name := DeploymentName(req.name, req.timestamp); name !in root || root[name].Directory?
    ensures var (deployed, r) := Deploy(root, deployPath, req, readme, NoFault);
      var (after, ok) := Delete(deployed, r.deploymentName);
      && ok
      && r.deploymentName !in after
      && (forall k :: k in root && k != r.deploymentName ==> k in after && after[k] == root[k])
      && (forall created: string -> string, info: DeploymentInfo ::
            Describes(after, deployPath, created, info) ==> info.name != r.deploymentName)
  {
    var name := DeploymentName(req.name, req.timestamp);
    DeploymentNamePlain(req.name, req.timestamp);
    assert name != ".." by {
      assert name[|req.name|] == '_';
    }
    PlainTarget(name);
    DeployFrame(root, deployPath, req, readme, NoFault);
    DeployLayout(root, deployPath, req, readme);
  }

  /** A name that resolves to no deployment fails and leaves the root alone. */
  lemma DeleteMissing(root: Root, name: string)
    requires Target(name).None? || Target(name).value !in root
    ensures Delete(root, name) == (root, false)
  {
  }

  /** The empty name and "." wipe a non-empty root as written, but not as intended. */
  lemma DeleteRootName(root: Root)
    requires root != map[]
    ensures DeleteAsWritten(root, "") == (map[], true) && DeleteAsWritten(root, "").0 != root
    ensures DeleteAsWritten(root, ".") == (map[], true)
    ensures Delete(root, "") == (root, false) && Delete(root, ".") == (root, false)
  {
    SplitWithoutSeparator(".", '/');
    FilterSnoc([], ".", IsNamePart);
    assert [] + ["."] == ["."];
    assert Components(".") == [];
    FilterSnoc([], "", IsNamePart);
    assert [] + [""] == [""];
    assert Components("") == [];
  }

  /** The two agree on every name that names a single entry below the root. */
  lemma DeleteAgreesOnEntries(root: Root, name: string)
    requires Target(name).Some?
    ensures DeleteAsWritten(root, name) == Delete(root, name)
  {
  }

  // ---------------------------------------------------------------- the deployer

  class Deployer {
    var deployPath: string
    var provider: string
    var root: Root

    /** `deploy_path or $DEPLOY_PATH or "/tmp/gptbuilder_deployments"`, as `pathlib`
        prints it. `existing` is what the directory holds once `mkdir` has
        succeeded; a failing `mkdir` is not modelled. */
    constructor(deployPath: string, provider: string, environ: map<string, string>, existing: Root)
      ensures this.deployPath == PathText(ResolveDeployPath(deployPath, environ))
      ensures this.provider == provider && root == existing
    {
      this.deployPath := PathText(ResolveDeployPath(deployPath, environ));
      this.provider := provider;
      this.root := existing;
    }

    /** `_generate_readme`: the head, the metadata section for non-empty metadata, the footer. */
    method GenerateReadme(name: string, language: string, metadata: Metadata, deployedAt: string)
      returns (readme: string)
      ensures readme == ReadmeText(name, language, metadata, deployedAt)
    {
      readme := ReadmeHead(name, language, deployedAt);
      ghost var head := readme;
      if |metadata| > 0 {
        readme := AppendMetadataLines(readme + "\n## Metadata\n", metadata);
        ConcatAssoc(head, "\n## Metadata\n", MetadataLines(metadata));
      } else {
        assert head + MetadataSection(metadata) == head;
      }
      readme := readme + ReadmeFooter;
      ReadmeAssembly(name, language, metadata, deployedAt);
    }

    /** `deploy_code`, step by step; `fault` says which file-system step raises. */
    method DeployCode(code: string, name: string, language: string, metadata: Metadata,
                      timestamp: string, deployedAt: string, fault: DeployFault)
      returns (r: DeployResult)
      modifies this
      ensures deployPath == old(deployPath) && provider == old(provider)
      ensures (root, r) == Deploy(old(root), deployPath, Request(code, name, language, metadata, timestamp),
                                  ReadmeText(name, language, metadata, deployedAt), fault)
    {
      ghost var req := Request(code, name, language, metadata, timestamp);
      ghost var readmeText := ReadmeText(name, language, metadata, deployedAt);
      var deploymentName := DeploymentName(name, timestamp);
      var dirText := Child(deployPath, deploymentName);
      if fault.FailMkdir? {
        return DeployFailed(deploymentName, fault.message);
      }
      var made := MakeDirectory(root, deploymentName, dirText);
      if made.Err? {
        return DeployFailed(deploymentName, made.error);
      }
      DeployAfterMkdir(root, deployPath, req, readmeText, fault);
      root := made.value;
      var complete := WriteDeployment(deploymentName, code, name, language, metadata, timestamp, deployedAt, fault);
      if complete {
        r := Deployed(deploymentName, dirText, Child(dirText, MainFileName(language)));
      } else {
        r := DeployFailed(deploymentName, fault.message);
      }
    }

    /** The writes of `deploy_code` into its directory, in order, until `fault`
        raises; `complete` says whether every write was done. */
    method WriteDeployment(deploymentName: string, code: string, name: string, language: string,
                           metadata: Metadata, timestamp: string, deployedAt: string, fault: DeployFault)
      returns (complete: bool)
      requires deploymentName in root && root[deploymentName].Directory?
      modifies this
      ensures deployPath == old(deployPath) && provider == old(provider)
      ensures var req := Request(code, name, language, metadata, timestamp);
        && root == old(root)[deploymentName := Directory(WriteAll(old(root)[deploymentName].files,
                                                                  Effects(req, ReadmeText(name, language, metadata, deployedAt), fault)))]
        && (complete <==> Completed(req, fault) == WriteCount(req))
    {
      ghost var req := Request(code, name, language, metadata, timestamp);
      ghost var readmeText := ReadmeText(name, language, metadata, deployedAt);
      ghost var writes := Writes(req, readmeText);
      ghost var start := root;
      ghost var files := root[deploymentName].files;
      ghost var effects := Effects(req, readmeText, fault);
      ghost var done := 0;
      WritesOrder(req, readmeText);
      assert start[deploymentName := Directory(files)] == start;
      assert writes[..done] == [];
      var mainFile := MainFileName(language);
      if fault.FailWriteMain? {
        assert Completed(req, fault) == done;
        if fault.left.Some? {
          assert effects == writes[..done] + [(writes[done].0, Text(fault.left.value))];
          WriteCut(start, deploymentName, files, writes, done, Text(fault.left.value));
          root := WriteFile(root, deploymentName, mainFile, Text(fault.left.value));
        } else {
          assert effects == writes[..done];
        }
        return false;
      }
      WriteNext(start, deploymentName, files, writes, done);
      root := WriteFile(root, deploymentName, mainFile, Text(code));
      done := done + 1;
      if |metadata| > 0 {
        if fault.FailWriteMetadata? {
          assert Completed(req, fault) == done;
          if fault.left.Some? {
            assert effects == writes[..done] + [(writes[done].0, Text(fault.left.value))];
            WriteCut(start, deploymentName, files, writes, done, Text(fault.left.value));
            root := WriteFile(root, deploymentName, MetadataFile, Text(fault.left.value));
          } else {
            assert effects == writes[..done];
          }
          return false;
        }
        WriteNext(start, deploymentName, files, writes, done);
        root := WriteFile(root, deploymentName, MetadataFile, Json(metadata));
        done := done + 1;
      }
      assert done == |writes| - 1;
      var readme := GenerateReadme(name, language, metadata, deployedAt);
      if fault.FailWriteReadme? {
        assert Completed(req, fault) == done;
        if fault.left.Some? {
          assert effects == writes[..done] + [(writes[done].0, Text(fault.left.value))];
          WriteCut(start, deploymentName, files, writes, done, Text(fault.left.value));
          root := WriteFile(root, deploymentName, ReadmeFile, Text(fault.left.value));
        } else {
          assert effects == writes[..done];
        }
        return false;
      }
      WriteNext(start, deploymentName, files, writes, done);
      root := WriteFile(root, deploymentName, ReadmeFile, Text(readme));
      done := done + 1;
      assert Completed(req, fault) == done == |writes|;
      TakeAll(writes);
      assert effects == writes;
      return true;
    }

    /** `list_deployments`: one entry per deployment directory in the order the
        directory is iterated (chosen freely here); plain files are skipped. A
        metadata file that does not parse ends the listing early with the
        entries gathered so far. */
    method ListDeployments(created: string -> string) returns (listing: seq<DeploymentInfo>)
      ensures forall i :: 0 <= i < |listing| ==> Describes(root, deployPath, created, listing[i])
      ensures Distinct(Names(listing))
      ensures Readable(root) ==> Elements(Names(listing)) == DeploymentNames(root)
      ensures Readable(root) ==> |listing| == |DeploymentNames(root)|
    {
      var dir := root;
      listing := [];
      var todo := dir.Keys;
      ghost var seen: set<string> := {};
      ListingStarts(dir, deployPath, created);
      while todo != {}
        invariant todo + seen == dir.Keys && todo !! seen
        invariant ListedSoFar(dir, deployPath, created, listing, seen)
        decreases |todo|
      {
        var item :| item in todo;
        if dir[item].Directory? {
          var metadata := ReadMetadata(dir[item].files);
          if metadata.None? {
            return;
          }
          ListingAdds(dir, deployPath, created, listing, seen, item);
          listing := listing + [DeploymentInfo(item, Child(deployPath, item), created(item), metadata.value)];
        } else {
          ListingSkips(dir, deployPath, created, listing, seen, item);
        }
        todo := todo - {item};
        seen := seen + {item};
      }
      ListingComplete(dir, deployPath, created, listing);
    }

    /** `delete_deployment`: removes the named deployment directory only. */
    method DeleteDeployment(name: string) returns (deleted: bool)
      modifies this
      ensures deployPath == old(deployPath) && provider == old(provider)
      ensures (root, deleted) == Delete(old(root), name)
    {
      var target := Target(name);
      if target.Some? && IsDeployment(root, target.value) {
        root := root - {target.value};
        return true;
      }
      return false;
    }
  }

  function ResolveDeployPath(deployPath: string, environ: map<string, string>): (path: string)
    ensures deployPath != "" ==> path == deployPath
    ensures deployPath == "" && "DEPLOY_PATH" in environ ==> path == environ["DEPLOY_PATH"]
    ensures deployPath == "" && "DEPLOY_PATH" !in environ ==> path == DefaultDeployPath
  {
    if deployPath != "" then deployPath
    else if "DEPLOY_PATH" in environ then environ["DEPLOY_PATH"]
    else DefaultDeployPath
  }
}
