/** The custom base image service: filtering the submitted environment
    settings and files, synthesising the Dockerfile and the file manifest, the
    build job's environment, the secret-gated downloads used by the build job,
    the name check before a build and the build-status callback. The DAO layer,
    the MD5 file store, FileInfo.toJson and the private registry are parameters. */
module ImageService {
  import opened JavaText

  /** GlobalConstant.HTTP_PREFIX and HTTPS_PREFIX: the 7 and 8 characters the generator strips. */
  const HttpPrefix := "http://"
  const HttpsPrefix := "https://"

  const FileJsonOpen := "{\"files\" : ["
  const FileJsonClose := "]}"

  /** BuildState names the service writes. */
  const Preparing := "Preparing"
  const Success := "Success"

  const NullInputMessage := "base image custom information is null."
  const NoRegistryMessage := "registry in global configuation must be set"

  /** An environment setting of the image; JSON input may leave either part null. */
  datatype EnvSetting = EnvSetting(key: Option<string>, value: Option<string>)

  /** A file to copy into the image: name, destination path, content and the MD5
      under which the file store keeps the content (null until saved). */
  datatype FileInfo = FileInfo(fileName: Option<string>, filePath: Option<string>, content: string, md5: Option<string>)

  /** The image the Dockerfile starts from. */
  datatype SourceImage = SourceImage(registryUrl: Option<string>, imageName: Option<string>, imageTag: Option<string>)

  /** The global registry setting: its URL and what Registry.fullRegistry() returns. */
  datatype Registry = Registry(url: Option<string>, fullRegistry: string)

  /** A tag the private registry lists for an image name. */
  datatype DockerImage = DockerImage(tag: Option<string>)

  /** A row of the base image catalogue. */
  datatype BaseImage = BaseImage(imageName: string, imageTag: string, registry: string, description: Option<string>)

  /** The callback body a build job posts. */
  datatype BuildStatus = BuildStatus(projectId: int, status: Option<string>, message: Option<string>)

  /** What validation answers: JobType.IMAGE_IN_REGISTRY, PROJECT, BASEIMAGE or NEITHER. */
  datatype JobType = ImageInRegistry | ProjectJob | BaseImageJob | NeitherJob

  /** The exceptions the service lets escape, as the HTTP layer sees them. */
  datatype Fault =
    | ParamError(message: string)
    | Forbidden
    | NullPointer
    | Unknown(cause: Fault)

  /** The custom base image record; the service updates its fields in place. */
  class BaseImageCustom {
    var imageName: string
    var imageTag: string
    var description: Option<string>
    var sourceImage: Option<SourceImage>
    var envSettings: seq<EnvSetting>
    var files: seq<FileInfo>
    var dockerfileContent: Option<string>
    var fileJson: Option<string>
    var state: Option<string>
    var message: Option<string>
    var secret: Option<string>
    var publish: int
    var createTime: int
    var finishTime: int
    var username: Option<string>
  }

  // ---------------------------------------------------------------------------
  // Filtering

  /** StringUtils.isBlank, which also holds for null. */
  predicate Blank(s: Option<string>) {
    s.None? || IsBlank(s.value)
  }

  /** Java's string concatenation, which writes a null reference as "null". */
  function Text(s: Option<string>): string {
    if s.None? then "null" else s.value
  }

  predicate KeptEnv(e: EnvSetting) {
    !Blank(e.key) && !Blank(e.value)
  }

  predicate KeptFile(f: FileInfo) {
    !Blank(f.fileName) && !Blank(f.filePath)
  }

  /** The settings addRelatedFileInfo keeps: both parts non-blank. */
  function KeptEnvs(envs: seq<EnvSetting>): (r: seq<EnvSetting>)
    ensures forall e :: e in r <==> e in envs && KeptEnv(e)
  {
    Filter(envs, KeptEnv)
  }

  /** The files addRelatedFileInfo keeps: name and path non-blank. */
  function KeptFiles(files: seq<FileInfo>): (r: seq<FileInfo>)
    ensures forall f :: f in r <==> f in files && KeptFile(f)
  {
    Filter(files, KeptFile)
  }

  /** Filtering keeps the relative order: the kept settings of a list are the
      kept settings of its first part followed by those of the rest. */
  lemma KeptEnvsInOrder(a: seq<EnvSetting>, b: seq<EnvSetting>)
    ensures KeptEnvs(a + b) == KeptEnvs(a) + KeptEnvs(b)
  {
    FilterConcat(a, b, KeptEnv);
  }

  lemma KeptFilesInOrder(a: seq<FileInfo>, b: seq<FileInfo>)
    ensures KeptFiles(a + b) == KeptFiles(a) + KeptFiles(b)
  {
    FilterConcat(a, b, KeptFile);
  }

  /** The copy loop of addRelatedFileInfo: skip what fails the test, append the rest. */
  method KeepWhere<T(!new)>(s: seq<T>, keep: T -> bool) returns (r: seq<T>)
    ensures r == Filter(s, keep)
  {
    r := [];
    for i := 0 to |s|
      invariant r == Filter(s[..i], keep)
    {
      assert s[..i + 1][..i] == s[..i];
      if !keep(s[i]) {
        continue;
      }
      r := r + [s[i]];
    }
    assert s[..|s|] == s;
  }

  // ---------------------------------------------------------------------------
  // Dockerfile synthesis

  /** The image reference after "From ": registry/name:tag, with "http://"
      removed first and then "https://" if what is left starts with it. */
  function DockerFrom(src: SourceImage): string {
    var from := Text(src.registryUrl) + "/" + Text(src.imageName) + ":" + Text(src.imageTag);
    var noHttp := if StartsWith(from, HttpPrefix) then from[|HttpPrefix|..] else from;
    if StartsWith(noHttp, HttpsPrefix) then noHttp[|HttpsPrefix|..] else noHttp
  }

  /** "registry/name:tag" without the registry's scheme. */
  function Reference(host: string, src: SourceImage): string {
    host + "/" + Text(src.imageName) + ":" + Text(src.imageTag)
  }

  /** An https registry URL loses its scheme. */
  lemma DockerFromHttps(src: SourceImage, host: string)
    requires src.registryUrl == Some(HttpsPrefix + host)
    ensures DockerFrom(src) == Reference(host, src)
  {
    var from := Text(src.registryUrl) + "/" + Text(src.imageName) + ":" + Text(src.imageTag);
    assert from == HttpsPrefix + Reference(host, src);
    assert from[4] != HttpPrefix[4];
    assert from[..|HttpsPrefix|] == HttpsPrefix;
  }

  /** An http registry URL loses its scheme, unless what follows is itself an
      https URL, which is then stripped as well. */
  lemma DockerFromHttp(src: SourceImage, host: string)
    requires src.registryUrl == Some(HttpPrefix + host)
    ensures !StartsWith(Reference(host, src), HttpsPrefix) ==> DockerFrom(src) == Reference(host, src)
    ensures StartsWith(Reference(host, src), HttpsPrefix) ==> DockerFrom(src) == Reference(host, src)[|HttpsPrefix|..]
  {
    var from := Text(src.registryUrl) + "/" + Text(src.imageName) + ":" + Text(src.imageTag);
    assert from == HttpPrefix + Reference(host, src);
    assert from[..|HttpPrefix|] == HttpPrefix;
    assert from[|HttpPrefix|..] == Reference(host, src);
  }

  /** A registry URL without a scheme is used as it is: one of at least eight
      characters, or a shorter host name (no '/') followed by an image name that
      does not start with '/'. */
  lemma DockerFromPlain(src: SourceImage, host: string)
    requires src.registryUrl == Some(host)
    requires !StartsWith(host, HttpPrefix) && !StartsWith(host, HttpsPrefix)
    requires |host| >= |HttpsPrefix| || ('/' !in host && !StartsWith(Text(src.imageName), "/"))
    ensures DockerFrom(src) == Reference(host, src)
  {
    var rest := Text(src.imageName) + ":" + Text(src.imageTag);
    var from := Text(src.registryUrl) + "/" + Text(src.imageName) + ":" + Text(src.imageTag);
    assert from == Reference(host, src) == host + "/" + rest;
    if |host| >= |HttpsPrefix| {
      assert from[..|HttpPrefix|] == host[..|HttpPrefix|];
      assert from[..|HttpsPrefix|] == host[..|HttpsPrefix|];
    } else {
      assert rest[0] != '/' by {
        if |Text(src.imageName)| == 0 {
          assert rest[0] == ':';
        } else {
          assert Text(src.imageName)[..1] != "/";
          assert rest[0] == Text(src.imageName)[0];
        }
      }
      assert from[|host|] == '/' && from[|host| + 1] == rest[0];
      ShortHostNoScheme(host, from, HttpPrefix, 5);
      ShortHostNoScheme(host, from, HttpsPrefix, 6);
    }
  }

  /** A scheme whose first '/' sits at `slash`, followed by a second '/', cannot
      begin `host + "/" + rest` when `host` holds no '/' and `rest` does not
      start with '/'. */
  lemma ShortHostNoScheme(host: string, from: string, scheme: string, slash: nat)
    requires slash + 1 < |scheme| && scheme[slash] == '/' && scheme[slash + 1] == '/'
    requires forall k :: 0 <= k < slash ==> scheme[k] != '/'
    requires '/' !in host && |host| + 1 < |from|
    requires from[..|host|] == host && from[|host|] == '/' && from[|host| + 1] != '/'
    ensures !StartsWith(from, scheme)
  {
  }

  function EnvLine(e: EnvSetting): string {
    "Env " + Text(e.key) + " " + Text(e.value) + "\n"
  }

  function CopyLine(f: FileInfo): string {
    "COPY " + Text(f.fileName) + " " + Text(f.filePath) + "\n"
  }

  /** One "Env key value" line per setting, in order. */
  function EnvLines(envs: seq<EnvSetting>): string
    decreases |envs|
  {
    if envs == [] then "" else EnvLines(envs[..|envs| - 1]) + EnvLine(envs[|envs| - 1])
  }

  /** One "COPY name path" line per file, in order. */
  function CopyLines(files: seq<FileInfo>): string
    decreases |files|
  {
    if files == [] then "" else CopyLines(files[..|files| - 1]) + CopyLine(files[|files| - 1])
  }

  /** The generated Dockerfile: the From line, the Env lines, the COPY lines. */
  function GeneratedDockerfile(src: SourceImage, envs: seq<EnvSetting>, files: seq<FileInfo>): string {
    "From " + DockerFrom(src) + "\n" + EnvLines(envs) + CopyLines(files)
  }

  /** The number of line feeds in a text. */
  function Newlines(s: string): nat
    decreases |s|
  {
    if s == [] then 0 else Newlines(s[..|s| - 1]) + (if s[|s| - 1] == '\n' then 1 else 0)
  }

  lemma {:induction false} NewlinesConcat(a: string, b: string)
    ensures Newlines(a + b) == Newlines(a) + Newlines(b)
    decreases |b|
  {
    if b == [] {
      assert a + b == a;
    } else {
      assert (a + b)[..|a + b| - 1] == a + b[..|b| - 1];
      NewlinesConcat(a, b[..|b| - 1]);
    }
  }

  lemma {:induction false} NoNewlines(s: string)
    requires '\n' !in s
    ensures Newlines(s) == 0
    decreases |s|
  {
    if s != [] {
      assert s[..|s| - 1] + [s[|s| - 1]] == s;
      NoNewlines(s[..|s| - 1]);
    }
  }

  /** The parts a generated line is made of contain no line feed. */
  predicate SingleLineEnv(e: EnvSetting) {
    '\n' !in Text(e.key) && '\n' !in Text(e.value)
  }

  predicate SingleLineFile(f: FileInfo) {
    '\n' !in Text(f.fileName) && '\n' !in Text(f.filePath)
  }

  /** A directive line built from single-line parts ends in its only newline. */
  lemma OneLine(directive: string, x: string, y: string)
    requires '\n' !in directive && '\n' !in x && '\n' !in y
    ensures Newlines(directive + x + " " + y + "\n") == 1
  {
    NoNewlines(directive);
    NoNewlines(x);
    NoNewlines(y);
    assert Newlines(" ") == 0 && Newlines("\n") == 1;
    NewlinesConcat(directive, x);
    NewlinesConcat(directive + x, " ");
    NewlinesConcat(directive + x + " ", y);
    NewlinesConcat(directive + x + " " + y, "\n");
  }

  lemma {:induction false} EnvLinesCount(envs: seq<EnvSetting>)
    requires forall i :: 0 <= i < |envs| ==> SingleLineEnv(envs[i])
    ensures Newlines(EnvLines(envs)) == |envs|
    decreases |envs|
  {
    if envs != [] {
      var e := envs[|envs| - 1];
      EnvLinesCount(envs[..|envs| - 1]);
      OneLine("Env ", Text(e.key), Text(e.value));
      NewlinesConcat(EnvLines(envs[..|envs| - 1]), EnvLine(e));
    }
  }

  lemma {:induction false} CopyLinesCount(files: seq<FileInfo>)
    requires forall i :: 0 <= i < |files| ==> SingleLineFile(files[i])
    ensures Newlines(CopyLines(files)) == |files|
    decreases |files|
  {
    if files != [] {
      var f := files[|files| - 1];
      CopyLinesCount(files[..|files| - 1]);
      OneLine("COPY ", Text(f.fileName), Text(f.filePath));
      NewlinesConcat(CopyLines(files[..|files| - 1]), CopyLine(f));
    }
  }

  /** The generated Dockerfile has exactly one line per kept setting and per
      kept file after the From line, when none of the parts spans lines. */
  lemma DockerfileLineCount(src: SourceImage, envs: seq<EnvSetting>, files: seq<FileInfo>)
    requires '\n' !in DockerFrom(src)
    requires forall i :: 0 <= i < |envs| ==> SingleLineEnv(envs[i])
    requires forall i :: 0 <= i < |files| ==> SingleLineFile(files[i])
    ensures Newlines(GeneratedDockerfile(src, envs, files)) == 1 + |envs| + |files|
  {
    var from := "From " + DockerFrom(src);
    NoNewlines(from);
    NewlinesConcat(from, "\n");
    EnvLinesCount(envs);
    CopyLinesCount(files);
    NewlinesConcat(from + "\n", EnvLines(envs));
    NewlinesConcat(from + "\n" + EnvLines(envs), CopyLines(files));
  }

  // ---------------------------------------------------------------------------
  // File manifest

  /** Each kept file after saveFile: its MD5 is what the store returned (null on failure). */
  function Saved(files: seq<FileInfo>, saveFile: (string, string) -> Option<string>): (r: seq<FileInfo>)
    ensures |r| == |files|
    decreases |files|
  {
    if files == [] then []
    else
      var f := files[|files| - 1];
      Saved(files[..|files| - 1], saveFile) + [f.(md5 := saveFile(Text(f.fileName), f.content))]
  }

  /** Saving changes nothing but the MD5, which is the store's answer for that
      file's name and content. */
  lemma {:induction false} SavedRecordsMd5(files: seq<FileInfo>, saveFile: (string, string) -> Option<string>)
    ensures forall i :: 0 <= i < |files| ==>
      Saved(files, saveFile)[i] == files[i].(md5 := saveFile(Text(files[i].fileName), files[i].content))
    decreases |files|
  {
    if files != [] {
      var init := files[..|files| - 1];
      SavedRecordsMd5(init, saveFile);
      forall i | 0 <= i < |files| - 1
        ensures Saved(files, saveFile)[i] == files[i].(md5 := saveFile(Text(files[i].fileName), files[i].content))
      {
        assert files[i] == init[i];
      }
    }
  }

  /** The files' JSON texts joined by ", ". */
  function JsonItems(files: seq<FileInfo>, toJson: FileInfo -> string): string
    decreases |files|
  {
    if |files| <= 1 then (if files == [] then "" else toJson(files[0]))
    else JsonItems(files[..|files| - 1], toJson) + ", " + toJson(files[|files| - 1])
  }

  /** Joining two non-empty lists joins their joined texts with one separator. */
  lemma {:induction false} JsonItemsConcat(a: seq<FileInfo>, b: seq<FileInfo>, toJson: FileInfo -> string)
    requires a != [] && b != []
    ensures JsonItems(a + b, toJson) == JsonItems(a, toJson) + ", " + JsonItems(b, toJson)
    decreases |b|
  {
    var ab := a + b;
    assert ab[..|ab| - 1] == a + b[..|b| - 1];
    assert ab[|ab| - 1] == b[|b| - 1];
    if |b| > 1 {
      JsonItemsConcat(a, b[..|b| - 1], toJson);
    } else {
      assert ab[..|ab| - 1] == a;
    }
  }

  /** The manifest: empty without files, else the joined items inside {"files" : [ ... ]}. */
  function FileJson(files: seq<FileInfo>, toJson: FileInfo -> string): (r: string)
    ensures r == "" <==> files == []
    ensures files != [] ==> |r| == |FileJsonOpen| + |JsonItems(files, toJson)| + |FileJsonClose|
    ensures files != [] ==> StartsWith(r, FileJsonOpen) && r[|r| - |FileJsonClose|..] == FileJsonClose
    ensures files != [] ==> r[|FileJsonOpen|..|r| - |FileJsonClose|] == JsonItems(files, toJson)
  {
    if files == [] then "" else FileJsonOpen + JsonItems(files, toJson) + FileJsonClose
  }

  /** The Env loop of addRelatedFileInfo; its empty-part guard is kept as
      written, and filtering makes it pass. */
  method AppendEnvLines(dockerfile: string, envs: seq<EnvSetting>) returns (d: string)
    requires forall i :: 0 <= i < |envs| ==> KeptEnv(envs[i])
    ensures d == dockerfile + EnvLines(envs)
  {
    d := dockerfile;
    for i := 0 to |envs|
      invariant d == dockerfile + EnvLines(envs[..i])
    {
      assert envs[..i + 1][..i] == envs[..i];
      var e := envs[i];
      if |e.key.value| == 0 || |e.value.value| == 0 {
        continue;
      }
      d := d + EnvLine(e);
    }
    assert envs[..|envs|] == envs;
  }

  lemma Associative(a: string, b: string, c: string)
    ensures a + b + c == a + (b + c)
  {
  }

  /** What one pass of the file loop adds to the saved list and the COPY lines. */
  lemma FileStep(files: seq<FileInfo>, i: nat, saveFile: (string, string) -> Option<string>)
    requires i < |files|
    ensures Saved(files[..i + 1], saveFile) ==
      Saved(files[..i], saveFile) + [files[i].(md5 := saveFile(Text(files[i].fileName), files[i].content))]
    ensures CopyLines(files[..i + 1]) == CopyLines(files[..i]) + CopyLine(files[i])
  {
    assert files[..i + 1][..i] == files[..i];
    var s := Saved(files[..i + 1], saveFile);
    assert s[..|s| - 1] == Saved(files[..i], saveFile);
  }

  /** What one saved file adds to the open manifest. */
  lemma ManifestStep(json: string, saved: seq<FileInfo>, stored: FileInfo, toJson: FileInfo -> string)
    requires json == if saved == [] then "" else FileJsonOpen + JsonItems(saved, toJson)
    ensures saved == [] ==> FileJsonOpen + toJson(stored) == FileJsonOpen + JsonItems(saved + [stored], toJson)
    ensures saved != [] ==> json + ", " + toJson(stored) == FileJsonOpen + JsonItems(saved + [stored], toJson)
  {
    var t := saved + [stored];
    if saved == [] {
      assert t == [stored];
    } else {
      assert t[..|t| - 1] == saved;
    }
  }

  /** The file loop of addRelatedFileInfo: save each file, add its JSON to the
      manifest and its COPY line to the Dockerfile, then close the manifest if
      it was opened. Its blank-name guard is kept as written. */
  method AppendFiles(dockerfile: string, files: seq<FileInfo>, saveFile: (string, string) -> Option<string>,
                     toJson: FileInfo -> string)
    returns (d: string, fileJson: string, saved: seq<FileInfo>)
    requires forall i :: 0 <= i < |files| ==> KeptFile(files[i])
    ensures d == dockerfile + CopyLines(files)
    ensures saved == Saved(files, saveFile)
    ensures fileJson == FileJson(saved, toJson)
  {
    d := dockerfile;
    var json := "";
    saved := [];
    for i := 0 to |files|
      invariant saved == Saved(files[..i], saveFile)
      invariant d == dockerfile + CopyLines(files[..i])
      invariant json == if saved == [] then "" else FileJsonOpen + JsonItems(saved, toJson)
    {
      var f := files[i];
      if Blank(f.fileName) {
        continue;
      }
      var stored := f.(md5 := saveFile(Text(f.fileName), f.content));
      FileStep(files, i, saveFile);
      ManifestStep(json, saved, stored, toJson);
      if |json| == 0 {
        json := FileJsonOpen + toJson(stored);
      } else {
        json := json + ", " + toJson(stored);
      }
      saved := saved + [stored];
      Associative(dockerfile, CopyLines(files[..i]), CopyLine(f));
      d := d + CopyLine(f);
    }
    assert files[..|files|] == files;
    if |json| != 0 {
      json := json + FileJsonClose;
    }
    fileJson := json;
  }

  /** The generation branch of addRelatedFileInfo over the kept lists: the From
      line, the Env loop, then the file loop. */
  method Generate(src: SourceImage, envs: seq<EnvSetting>, files: seq<FileInfo>,
                  saveFile: (string, string) -> Option<string>, toJson: FileInfo -> string)
    returns (dockerfile: string, fileJson: string, saved: seq<FileInfo>)
    requires forall i :: 0 <= i < |envs| ==> KeptEnv(envs[i])
    requires forall i :: 0 <= i < |files| ==> KeptFile(files[i])
    ensures dockerfile == GeneratedDockerfile(src, envs, files)
    ensures saved == Saved(files, saveFile)
    ensures fileJson == FileJson(saved, toJson)
  {
    var head := "From " + DockerFrom(src) + "\n";
    dockerfile := AppendEnvLines(head, envs);
    dockerfile, fileJson, saved := AppendFiles(dockerfile, files, saveFile, toJson);
  }

  /** addRelatedFileInfo: keep the usable settings and files; when the submitted
      Dockerfile is blank, generate it and the manifest from the source image
      (a null source image throws); always leave the record Preparing. */
  method AddRelatedFileInfo(b: BaseImageCustom, saveFile: (string, string) -> Option<string>,
                            toJson: FileInfo -> string)
    returns (r: Result<(), Fault>)
    modifies b`envSettings, b`files, b`dockerfileContent, b`fileJson, b`state
    ensures b.envSettings == KeptEnvs(old(b.envSettings))
    ensures r.Err? <==> Blank(old(b.dockerfileContent)) && b.sourceImage.None?
    ensures r.Err? ==> r.error == NullPointer && b.files == KeptFiles(old(b.files))
    ensures r.Err? ==> b.dockerfileContent == old(b.dockerfileContent) && b.fileJson == old(b.fileJson)
    ensures r.Err? ==> b.state == old(b.state)
    ensures r.Ok? && !Blank(old(b.dockerfileContent)) ==>
      b.files == KeptFiles(old(b.files)) && b.dockerfileContent == old(b.dockerfileContent) && b.fileJson == old(b.fileJson)
    ensures r.Ok? && Blank(old(b.dockerfileContent)) ==>
      && b.sourceImage.Some? && b.files == Saved(KeptFiles(old(b.files)), saveFile)
      && b.dockerfileContent == Some(GeneratedDockerfile(b.sourceImage.value, b.envSettings, KeptFiles(old(b.files))))
      && b.fileJson == Some(FileJson(b.files, toJson))
    ensures r.Ok? ==> b.state == Some(Preparing)
  {
    var envs := KeepWhere(b.envSettings, KeptEnv);
    var files := KeepWhere(b.files, KeptFile);
    var content, json := b.dockerfileContent, b.fileJson;
    if Blank(content) {
      if b.sourceImage.None? {
        b.envSettings, b.files := envs, files;
        return Err(NullPointer);
      }
      FilterAll(b.envSettings, KeptEnv);
      FilterAll(b.files, KeptFile);
      var dockerfile, fileJson, saved := Generate(b.sourceImage.value, envs, files, saveFile, toJson);
      files, content, json := saved, Some(dockerfile), Some(fileJson);
    }
    b.envSettings, b.files, b.dockerfileContent, b.fileJson, b.state := envs, files, content, json, Some(Preparing);
    return Ok(());
  }

  /** addBaseImageCustom: refuse a null record or one checkLegality objects to
      (`legality` is what it returns); fill a blank source registry URL with the
      global registry's; stamp time and user; then addRelatedFileInfo, whose
      exceptions are wrapped. */
  method AddBaseImageCustom(b: BaseImageCustom?, legality: Option<string>, globalRegistry: Option<Registry>,
                            now: int, user: Option<string>,
                            saveFile: (string, string) -> Option<string>, toJson: FileInfo -> string)
    returns (r: Result<(), Fault>)
    modifies Records(b)`sourceImage, Records(b)`createTime, Records(b)`username, Records(b)`envSettings,
             Records(b)`files, Records(b)`dockerfileContent, Records(b)`fileJson, Records(b)`state
    ensures b == null ==> r == Err(ParamError(NullInputMessage))
    ensures b != null && !Blank(legality) ==> r == Err(ParamError(legality.value)) && unchanged(b)
    ensures b != null && Blank(legality) && old(b.sourceImage).Some? && Blank(old(b.sourceImage).value.registryUrl) ==>
      if globalRegistry.None? then r == Err(NullPointer) && unchanged(b)
      else b.sourceImage == Some(old(b.sourceImage).value.(registryUrl := globalRegistry.value.url))
    ensures b != null && Blank(legality) && (old(b.sourceImage).None? || !Blank(old(b.sourceImage).value.registryUrl)) ==>
      b.sourceImage == old(b.sourceImage)
    // once past the registry default: stamped, and the lists filtered whatever happens next
    ensures b != null && Blank(legality) && (r.Ok? || r.error != NullPointer) ==>
      && b.createTime == now && b.username == user
      && b.envSettings == KeptEnvs(old(b.envSettings))
    ensures (r.Err? && b != null && Blank(legality) &&
             !(old(b.sourceImage).Some? && Blank(old(b.sourceImage).value.registryUrl) && globalRegistry.None?)) ==>
      && r == Err(Unknown(NullPointer)) && b.sourceImage.None? && Blank(old(b.dockerfileContent))
      && b.files == KeptFiles(old(b.files)) && b.state == old(b.state)
      && b.dockerfileContent == old(b.dockerfileContent) && b.fileJson == old(b.fileJson)
    ensures r.Ok? ==> b != null && b.state == Some(Preparing)
    // a submitted Dockerfile is kept ...
    ensures r.Ok? && !Blank(old(b.dockerfileContent)) ==>
      && b.files == KeptFiles(old(b.files))
      && b.dockerfileContent == old(b.dockerfileContent) && b.fileJson == old(b.fileJson)
    // ... and a blank one is generated from the source image with its defaulted registry URL
    ensures r.Ok? && Blank(old(b.dockerfileContent)) ==>
      && b.sourceImage.Some? && b.files == Saved(KeptFiles(old(b.files)), saveFile)
      && b.dockerfileContent == Some(GeneratedDockerfile(b.sourceImage.value, b.envSettings, KeptFiles(old(b.files))))
      && b.fileJson == Some(FileJson(b.files, toJson))
  {
    if b == null {
      return Err(ParamError(NullInputMessage));
    }
    if !Blank(legality) {
      return Err(ParamError(legality.value));
    }
    if b.sourceImage.Some? && Blank(b.sourceImage.value.registryUrl) {
      if globalRegistry.None? {
        return Err(NullPointer);
      }
      b.sourceImage := Some(b.sourceImage.value.(registryUrl := globalRegistry.value.url));
    }
    b.createTime, b.username := now, user;
    var added := AddRelatedFileInfo(b, saveFile, toJson);
    if added.Err? {
      return Err(Unknown(added.error));
    }
    return Ok(());
  }

  // ---------------------------------------------------------------------------
  // Build job environment

  /** A LinkedHashMap<String, String> as its entries in insertion order. */
  type Entries = seq<(string, Option<string>)>

  predicate HasKey(m: Entries, key: string) {
    exists i :: 0 <= i < |m| && m[i].0 == key
  }

  predicate DistinctKeys(m: Entries) {
    forall i, j :: 0 <= i < j < |m| ==> m[i].0 != m[j].0
  }

  /** LinkedHashMap.put: a new key goes last; an existing key keeps its place
      and takes the new value (PutAppends, PutReplaces, PutKeys). */
  function Put(m: Entries, key: string, value: Option<string>): Entries
    decreases |m|
  {
    if m == [] then [(key, value)]
    else if m[0].0 == key then [(key, value)] + m[1..]
    else [m[0]] + Put(m[1..], key, value)
  }

  /** Putting a new key appends the entry. */
  lemma {:induction false} PutAppends(m: Entries, key: string, value: Option<string>)
    requires !HasKey(m, key)
    ensures Put(m, key, value) == m + [(key, value)]
    decreases |m|
  {
    if m != [] {
      assert !HasKey(m[1..], key) by {
        forall i | 0 <= i < |m[1..]| ensures m[1..][i].0 != key {
          assert m[1..][i] == m[i + 1];
        }
      }
      PutAppends(m[1..], key, value);
      assert [m[0]] + (m[1..] + [(key, value)]) == m + [(key, value)];
    }
  }

  /** Putting a present key (keys being distinct) overwrites its value in place. */
  lemma {:induction false} PutReplaces(m: Entries, key: string, value: Option<string>)
    requires DistinctKeys(m) && HasKey(m, key)
    ensures |Put(m, key, value)| == |m|
    ensures forall i :: 0 <= i < |m| ==>
      Put(m, key, value)[i] == if m[i].0 == key then (key, value) else m[i]
    decreases |m|
  {
    var r := Put(m, key, value);
    if m[0].0 != key {
      var k :| 0 <= k < |m| && m[k].0 == key;
      assert m[1..][k - 1].0 == key;
      PutReplaces(m[1..], key, value);
      assert r == [m[0]] + Put(m[1..], key, value);
      forall i | 0 < i < |m| ensures r[i] == if m[i].0 == key then (key, value) else m[i] {
        assert r[i] == Put(m[1..], key, value)[i - 1] && m[1..][i - 1] == m[i];
      }
    } else {
      assert r == [(key, value)] + m[1..];
      forall i | 0 < i < |m| ensures r[i] == m[i] && m[i].0 != key {
        assert r[i] == m[1..][i - 1];
      }
    }
  }

  /** After a put the keys are the old keys and the put key. */
  lemma {:induction false} PutKeys(m: Entries, key: string, value: Option<string>, x: string)
    ensures HasKey(Put(m, key, value), x) <==> HasKey(m, x) || x == key
    decreases |m|
  {
    var r := Put(m, key, value);
    if m == [] {
      assert r[0].0 == key;
    } else if m[0].0 == key {
      assert r[0].0 == key;
      assert forall i :: 1 <= i < |m| ==> r[i] == m[i];
      if HasKey(m, x) {
        var k :| 0 <= k < |m| && m[k].0 == x;
        assert r[k].0 == x;
      }
    } else {
      PutKeys(m[1..], key, value, x);
      var t := Put(m[1..], key, value);
      assert r == [m[0]] + t;
      assert r[0] == m[0];
      if HasKey(m, x) && x != m[0].0 {
        var k :| 0 <= k < |m| && m[k].0 == x;
        assert m[1..][k - 1].0 == x;
      }
      if HasKey(t, x) {
        var k :| 0 <= k < |t| && t[k].0 == x;
        assert r[k + 1].0 == x;
      }
      if HasKey(r, x) && x != m[0].0 {
        var k :| 0 <= k < |r| && r[k].0 == x;
        assert t[k - 1].0 == x;
      }
      if HasKey(m[1..], x) {
        var k :| 0 <= k < |m[1..]| && m[1..][k].0 == x;
        assert m[k + 1].0 == x;
      }
    }
  }

  /** A put keeps the keys distinct. */
  lemma {:induction false} PutKeepsDistinct(m: Entries, key: string, value: Option<string>)
    requires DistinctKeys(m)
    ensures DistinctKeys(Put(m, key, value))
    decreases |m|
  {
    if m != [] && m[0].0 != key {
      var t := Put(m[1..], key, value);
      PutKeepsDistinct(m[1..], key, value);
      PutKeys(m[1..], key, value, m[0].0);
      assert !HasKey(m[1..], m[0].0) by {
        forall i | 0 <= i < |m[1..]| ensures m[1..][i].0 != m[0].0 {
          assert m[1..][i] == m[i + 1];
        }
      }
      var r := [m[0]] + t;
      forall i, j | 0 <= i < j < |r| ensures r[i].0 != r[j].0 {
        if i == 0 {
          assert t[j - 1].0 == r[j].0;
        } else {
          assert r[i] == t[i - 1] && r[j] == t[j - 1];
        }
      }
    } else if m != [] {
      var r := Put(m, key, value);
      assert forall i :: 1 <= i < |m| ==> r[i] == m[i];
    }
  }

  /** A key outside a set that holds every present key is new, and goes last. */
  lemma PutNewKey(m: Entries, keys: set<string>, key: string, value: Option<string>)
    requires forall i :: 0 <= i < |m| ==> m[i].0 in keys
    requires DistinctKeys(m)
    requires key !in keys
    ensures Put(m, key, value) == m + [(key, value)]
    ensures forall i :: 0 <= i < |m| + 1 ==> (m + [(key, value)])[i].0 in keys + {key}
    ensures DistinctKeys(m + [(key, value)])
  {
    PutAppends(m, key, value);
  }

  /** generateEnvs: the eight variables of the build job, in insertion order. */
  method GenerateEnvs(server: Option<string>, imageId: int, imageName: Option<string>, imageTag: Option<string>,
                      registryUrl: Option<string>, secret: Option<string>, jobType: Option<string>,
                      dockerfile: Option<string>)
    returns (env: Entries)
    ensures env == [("SERVER", server)] + [("IMAGEID", Some(IntToString(imageId)))] + [("IMAGENAME", imageName)]
                   + [("IMAGETAG", imageTag)] + [("REGISTRYURL", registryUrl)] + [("SECRET", secret)]
                   + [("DOCKERFILE", dockerfile)] + [("TYPE", jobType)]
    ensures DistinctKeys(env)
    ensures ParseInt(env[1].1.value) == imageId
  {
    env := [];
    PutNewKey(env, {}, "SERVER", server);
    env := Put(env, "SERVER", server);
    assert env == [("SERVER", server)];
    PutNewKey(env, {"SERVER"}, "IMAGEID", Some(IntToString(imageId)));
    env := Put(env, "IMAGEID", Some(IntToString(imageId)));
    PutNewKey(env, {"SERVER", "IMAGEID"}, "IMAGENAME", imageName);
    env := Put(env, "IMAGENAME", imageName);
    PutNewKey(env, {"SERVER", "IMAGEID", "IMAGENAME"}, "IMAGETAG", imageTag);
    env := Put(env, "IMAGETAG", imageTag);
    PutNewKey(env, {"SERVER", "IMAGEID", "IMAGENAME", "IMAGETAG"}, "REGISTRYURL", registryUrl);
    env := Put(env, "REGISTRYURL", registryUrl);
    assert "SERVER" != "SECRET" by { assert "SERVER"[2] != "SECRET"[2]; }
    PutNewKey(env, {"SERVER", "IMAGEID", "IMAGENAME", "IMAGETAG", "REGISTRYURL"}, "SECRET", secret);
    env := Put(env, "SECRET", secret);
    PutNewKey(env, {"SERVER", "IMAGEID", "IMAGENAME", "IMAGETAG", "REGISTRYURL", "SECRET"}, "DOCKERFILE", dockerfile);
    env := Put(env, "DOCKERFILE", dockerfile);
    PutNewKey(env, {"SERVER", "IMAGEID", "IMAGENAME", "IMAGETAG", "REGISTRYURL", "SECRET", "DOCKERFILE"}, "TYPE", jobType);
    env := Put(env, "TYPE", jobType);
    ParseIntToString(imageId);
  }

  // ---------------------------------------------------------------------------
  // Secret-gated accessors for the build job

  /** The gate of the three accessors: a missing record fails it, a record whose
      secret was never set throws on getSecret().equals, otherwise the secrets
      must be equal (equals(null) is false). */
  function SecretGate(record: BaseImageCustom?, given: Option<string>): (r: Result<bool, Fault>)
    reads record
    ensures r == Ok(true) <==> record != null && record.secret.Some? && given == record.secret
    ensures r.Err? <==> record != null && record.secret.None?
    ensures r.Err? ==> r.error == NullPointer
  {
    if record == null then Ok(false)
    else if record.secret.None? then Err(NullPointer)
    else Ok(given == record.secret)
  }

  /** downloadDockerfile: "Forbidden" unless the gate passes, then the stored content. */
  function DownloadDockerfile(given: Option<string>, record: BaseImageCustom?): (r: Result<Option<string>, Fault>)
    reads record
    ensures record == null || (record.secret.Some? && record.secret != given) ==> r == Ok(Some("Forbidden"))
    ensures r.Ok? && r.value != Some("Forbidden") ==>
      record != null && record.secret == given && r.value == record.dockerfileContent
    ensures record != null && record.secret.Some? && record.secret == given ==> r == Ok(record.dockerfileContent)
    ensures record != null && record.secret.None? ==> r == Err(NullPointer)
  {
    match SecretGate(record, given)
    case Err(e) => Err(e)
    case Ok(pass) => if pass then Ok(record.dockerfileContent) else Ok(Some("Forbidden"))
  }

  /** getFileJson: null unless the gate passes, then the stored manifest. */
  function GetFileJson(given: Option<string>, record: BaseImageCustom?): (r: Result<Option<string>, Fault>)
    reads record
    ensures record == null || (record.secret.Some? && record.secret != given) ==> r == Ok(None)
    ensures r.Ok? && r.value.Some? ==> record != null && record.secret == given && r.value == record.fileJson
    ensures record != null && record.secret.Some? && record.secret == given ==> r == Ok(record.fileJson)
    ensures record != null && record.secret.None? ==> r == Err(NullPointer)
  {
    match SecretGate(record, given)
    case Err(e) => Err(e)
    case Ok(pass) => if pass then Ok(record.fileJson) else Ok(None)
  }

  /** The file loop of downloadFile: the content of the first file whose MD5
      equals `md5`; a file without an MD5 met before that throws. */
  function FirstWithMd5(files: seq<FileInfo>, md5: Option<string>): (r: Result<Option<string>, Fault>)
    ensures r.Ok? && r.value.Some? ==>
      exists i :: 0 <= i < |files| && files[i].md5.Some? && files[i].md5 == md5 && r.value.value == files[i].content
        && forall j :: 0 <= j < i ==> files[j].md5.Some? && files[j].md5 != md5
    ensures r == Ok(None) <==> forall j :: 0 <= j < |files| ==> files[j].md5.Some? && files[j].md5 != md5
    ensures r.Err? ==> r.error == NullPointer
    ensures r.Err? ==>
      exists i :: 0 <= i < |files| && files[i].md5.None? && forall j :: 0 <= j < i ==> files[j].md5 != md5
    decreases |files|
  {
    if files == [] then Ok(None)
    else if files[0].md5.None? then Err(NullPointer)
    else if files[0].md5 == md5 then Ok(Some(files[0].content))
    else
      var rest := FirstWithMd5(files[1..], md5);
      assert forall j :: 1 <= j < |files| ==> files[j] == files[1..][j - 1];
      rest
  }

  /** downloadFile: null unless the gate passes, then the first matching file's content. */
  function DownloadFile(md5: Option<string>, given: Option<string>, record: BaseImageCustom?): (r: Result<Option<string>, Fault>)
    reads record
    ensures record == null || (record.secret.Some? && record.secret != given) ==> r == Ok(None)
    ensures r.Ok? && r.value.Some? ==> record != null && record.secret == given
    ensures r.Ok? && r.value.Some? ==>
      exists i :: 0 <= i < |record.files| && record.files[i].md5 == md5 && r.value.value == record.files[i].content
    ensures record != null && record.secret.Some? && record.secret == given ==> r == FirstWithMd5(record.files, md5)
    ensures record != null && record.secret.None? ==> r == Err(NullPointer)
  {
    match SecretGate(record, given)
    case Err(e) => Err(e)
    case Ok(pass) => if pass then FirstWithMd5(record.files, md5) else Ok(None)
  }

  // ---------------------------------------------------------------------------
  // Name check before a build

  /** The registry loop of validation: some listed image carries the tag. */
  function TagListed(images: seq<DockerImage>, tag: string): (b: bool)
    ensures b <==> exists i :: 0 <= i < |images| && images[i].tag == Some(tag)
    decreases |images|
  {
    if images == [] then false
    else if images[0].tag == Some(tag) then true
    else
      assert forall i :: 1 <= i < |images| ==> images[i] == images[1..][i - 1];
      TagListed(images[1..], tag)
  }

  /** validation: no registry is an error; then a tag the private registry
      lists, a project of that name, a catalogued base image, in that order. */
  function Validation(registry: Option<Registry>, imageName: string, imageTag: Option<string>,
                      registryImages: (string, string) -> Option<seq<DockerImage>>,
                      projectNamed: string -> bool,
                      baseImageListed: (string, Option<string>, string) -> bool): (r: Result<JobType, Fault>)
    ensures r.Err? <==> registry.None?
    ensures r.Err? ==> r.error == ParamError(NoRegistryMessage)
    ensures r == Ok(ImageInRegistry) <==> (
      && registry.Some? && imageTag.Some?
      && registryImages(imageName, registry.value.fullRegistry).Some?
      && exists i :: 0 <= i < |registryImages(imageName, registry.value.fullRegistry).value|
           && registryImages(imageName, registry.value.fullRegistry).value[i].tag == imageTag)
    ensures r == Ok(ProjectJob) ==> registry.Some? && projectNamed(imageName)
    ensures r == Ok(BaseImageJob) ==>
      registry.Some? && !projectNamed(imageName) && baseImageListed(imageName, imageTag, registry.value.fullRegistry)
    ensures r == Ok(NeitherJob) ==> !projectNamed(imageName) && !baseImageListed(imageName, imageTag, registry.value.fullRegistry)
  {
    if registry.None? then Err(ParamError(NoRegistryMessage))
    else
      var full := registry.value.fullRegistry;
      var images := registryImages(imageName, full);
      if imageTag.Some? && images.Some? && TagListed(images.value, imageTag.value) then Ok(ImageInRegistry)
      else if projectNamed(imageName) then Ok(ProjectJob)
      else if baseImageListed(imageName, imageTag, full) then Ok(BaseImageJob)
      else Ok(NeitherJob)
  }

  // ---------------------------------------------------------------------------
  // Build-status callback

  /** imageBiz.getBaseImageByNameAndTag over the catalogue. */
  predicate Catalogued(catalog: seq<BaseImage>, name: string, tag: string, registry: string) {
    exists i :: 0 <= i < |catalog| && catalog[i].imageName == name && catalog[i].imageTag == tag
      && catalog[i].registry == registry
  }

  /** The publish rule: add the image unless one of that name, tag and registry is catalogued. */
  function Publish(catalog: seq<BaseImage>, image: BaseImage): (r: seq<BaseImage>)
    ensures Catalogued(catalog, image.imageName, image.imageTag, image.registry) ==> r == catalog
    ensures !Catalogued(catalog, image.imageName, image.imageTag, image.registry) ==> r == catalog + [image]
    ensures Catalogued(r, image.imageName, image.imageTag, image.registry)
  {
    if Catalogued(catalog, image.imageName, image.imageTag, image.registry) then catalog
    else
      assert (catalog + [image])[|catalog|] == image;
      catalog + [image]
  }

  /** Publishing the same image twice catalogues it once. */
  lemma PublishIdempotent(catalog: seq<BaseImage>, image: BaseImage)
    ensures Publish(Publish(catalog, image), image) == Publish(catalog, image)
  {
  }

  /** The record behind a possibly null reference, as a frame. */
  function Records(record: BaseImageCustom?): set<BaseImageCustom> {
    if record == null then {} else {record}
  }

  /** setBuildStatus: nothing without a status; the record must exist and its
      secret match; then record state, message and finish time, and on Success
      with a registry configured, publish the image if the record asks for it. */
  method SetBuildStatus(buildStatus: Option<BuildStatus>, given: Option<string>, record: BaseImageCustom?,
                        registry: Option<Registry>, now: int, catalog: seq<BaseImage>)
    returns (r: Result<(), Fault>, catalog': seq<BaseImage>)
    modifies Records(record)`state, Records(record)`message, Records(record)`finishTime
    ensures buildStatus.None? ==> r.Ok? && catalog' == catalog && (record != null ==> unchanged(record))
    ensures buildStatus.Some? ==> (r.Err? <==> !(SecretGate(record, given) == Ok(true)))
    ensures r.Err? ==> catalog' == catalog && (record != null ==> unchanged(record))
    ensures buildStatus.Some? && r.Err? ==> r.error == if SecretGate(record, given).Err? then NullPointer else Forbidden
    ensures buildStatus.Some? && r.Ok? ==>
      && record.message == buildStatus.value.message && record.finishTime == now
      && record.state == buildStatus.value.status
    ensures buildStatus.Some? && r.Ok? ==>
      catalog' == if registry.Some? && buildStatus.value.status == Some(Success) && old(record.publish) == 1
                  then Publish(catalog, BaseImage(old(record.imageName), old(record.imageTag), registry.value.fullRegistry,
                                                  old(record.description)))
                  else catalog
  {
    catalog' := catalog;
    if buildStatus.None? {
      return Ok(()), catalog';
    }
    var gate := SecretGate(record, given);
    if gate.Err? {
      return Err(NullPointer), catalog';
    }
    if !gate.value {
      return Err(Forbidden), catalog';
    }
    record.state := buildStatus.value.status;
    record.message := buildStatus.value.message;
    record.finishTime := now;
    if registry.Some? && buildStatus.value.status == Some(Success) {
      record.state := Some(Success);
      var image := BaseImage(record.imageName, record.imageTag, registry.value.fullRegistry, record.description);
      if record.publish == 1 {
        catalog' := Publish(catalog, image);
      }
    }
    return Ok(()), catalog';
  }
}
