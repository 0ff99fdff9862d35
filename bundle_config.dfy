/**
 * A survey bundle's configuration: a text of lines where `@category<TAB>x` and
 * `@form<TAB>x` add to ordered lists, any other `@key<TAB>value` sets a metadata
 * entry, and every other line is ignored; validation then demands at least one form,
 * at least one category and six metadata entries.
 */
module BundleConfigModel {
  import opened Wrappers
  import opened JavaText

  /** Why a configuration was refused. */
  datatype ConfigError =
    | EmptyConfig                   // the constructor was given a null or empty text
    | MalformedLine(line: nat)      // a metadata line without a tab (index among the lines)
    | NoForm
    | NoCategory
    | MissingMetadata(key: string)

  /** The metadata keys validation demands, in the order it checks them. */
  const RequiredMetadata: seq<string> := ["title", "description", "version", "author", "email", "generated"]

  const CommandMarker: string := "@"
  const CategoryMarker: string := "@category"
  const FormMarker: string := "@form"

  /** The three collections a configuration object holds. */
  datatype Config = Config(metadata: map<string, string>, categories: seq<string>, forms: seq<string>)

  /** Parsing either consumed every line or stopped, with the effects so far, at one that threw. */
  datatype ParseRun = Parsed(config: Config) | Aborted(config: Config, line: nat)

  /** `line.substring(line.indexOf("\t") + 1)`: with no tab this is the whole line. */
  function AfterTab(line: string): (r: string)
    ensures '\t' !in line ==> r == line
    ensures '\t' in line ==> |r| < |line| && r == line[|line| - |r|..]
    ensures '\t' in line ==> line[|line| - |r| - 1] == '\t' && '\t' !in line[..|line| - |r| - 1]
  {
    line[IndexOf(line, '\t') + 1..]
  }

  /** A command line: it starts with `@`. */
  predicate IsCommandLine(line: string) {
    CommandMarker <= line
  }

  predicate IsCategoryLine(line: string) {
    CategoryMarker <= line
  }

  /** A form line: the category test runs first, so "@category..." is never one. */
  predicate IsFormLine(line: string) {
    !IsCategoryLine(line) && FormMarker <= line
  }

  predicate IsMetadataLine(line: string) {
    IsCommandLine(line) && !IsCategoryLine(line) && !IsFormLine(line)
  }

  /** A metadata line without a tab: `substring(1, -1)` throws. */
  predicate IsMalformedLine(line: string) {
    IsMetadataLine(line) && '\t' !in line
  }

  /** The key of a well-formed metadata line: the trimmed text between `@` and the first tab. */
  function MetadataKey(line: string): string
    requires IsMetadataLine(line) && '\t' in line
  {
    Trim(line[1..IndexOf(line, '\t')])
  }

  /** The value of a well-formed metadata line: the trimmed text after the first tab. */
  function MetadataValue(line: string): string
    requires IsMetadataLine(line) && '\t' in line
  {
    Trim(AfterTab(line))
  }

  /** What one line of the configuration text does. */
  datatype LineEffect =
    | Ignored                                  // not a command line
    | AddCategory(text: string)
    | AddForm(text: string)
    | SetMetadata(key: string, value: string)
    | Throws                                   // a metadata line without a tab

  /** The effect of one line, as the branches of `parseConfig` decide it. */
  function Classify(line: string): LineEffect {
    if !IsCommandLine(line) then Ignored
    else if IsCategoryLine(line) then AddCategory(Trim(AfterTab(line)))
    else if IsFormLine(line) then AddForm(Trim(AfterTab(line)))
    else if '\t' !in line then Throws
    else SetMetadata(MetadataKey(line), MetadataValue(line))
  }

  /** Each kind of line has exactly one effect, carrying the trimmed texts around the first tab. */
  lemma ClassifyMeaning(line: string)
    ensures Classify(line).Ignored? <==> !IsCommandLine(line)
    ensures Classify(line).AddCategory? <==> IsCategoryLine(line)
    ensures Classify(line).AddForm? <==> IsFormLine(line)
    ensures Classify(line).SetMetadata? <==> IsMetadataLine(line) && '\t' in line
    ensures Classify(line).Throws? <==> IsMalformedLine(line)
    ensures IsCategoryLine(line) || IsFormLine(line) ==> Classify(line).text == Trim(AfterTab(line))
    ensures IsMetadataLine(line) && '\t' in line ==>
      Classify(line).key == MetadataKey(line) && Classify(line).value == MetadataValue(line)
  {
  }

  /** The change one effect makes to the collections; None when the line threw. */
  function Apply(e: LineEffect, c: Config): Option<Config> {
    match e
    case Ignored => Some(c)
    case AddCategory(text) => Some(c.(categories := c.categories + [text]))
    case AddForm(text) => Some(c.(forms := c.forms + [text]))
    case SetMetadata(key, value) => Some(c.(metadata := c.metadata[key := value]))
    case Throws => None
  }

  /** The first `n` effects applied in order, stopping at the first line that throws. */
  function Run(effects: seq<LineEffect>, n: nat, c: Config): ParseRun
    requires n <= |effects|
  {
    if n == 0 then Parsed(c)
    else
      match Run(effects, n - 1, c)
      case Aborted(partial, k) => Aborted(partial, k)
      case Parsed(partial) =>
        match Apply(effects[n - 1], partial)
        case None => Aborted(partial, n - 1)
        case Some(next) => Parsed(next)
  }

  /** The effect of every line, in line order. */
  function Effects(lines: seq<string>): (es: seq<LineEffect>)
    ensures |es| == |lines|
    ensures forall i :: 0 <= i < |lines| ==> es[i] == Classify(lines[i])
  {
    seq(|lines|, i requires 0 <= i < |lines| => Classify(lines[i]))
  }

  /** What `parseConfig` does to the collections `c`, for the given lines. */
  function ParseLines(lines: seq<string>, c: Config): ParseRun {
    Run(Effects(lines), |lines|, c)
  }

  /**
   * One more effect after an unbroken prefix: it is applied, or the whole run stops
   * at it with the prefix's collections.
   */
  lemma RunStep(effects: seq<LineEffect>, c: Config, i: nat, partial: Config)
    requires i < |effects| && Run(effects, i, c) == Parsed(partial)
    ensures Apply(effects[i], partial).Some? ==>
      Run(effects, i + 1, c) == Parsed(Apply(effects[i], partial).value)
    ensures Apply(effects[i], partial).None? ==> Run(effects, |effects|, c) == Aborted(partial, i)
  {
    if Apply(effects[i], partial).None? {
      RunAbortSticks(effects, c, i + 1, |effects|);
    }
  }

  /** Once a line has thrown, the lines after it change nothing. */
  lemma {:induction false} RunAbortSticks(effects: seq<LineEffect>, c: Config, n: nat, m: nat)
    requires n <= m <= |effects| && Run(effects, n, c).Aborted?
    ensures Run(effects, m, c) == Run(effects, n, c)
    decreases m
  {
    if n < m {
      RunAbortSticks(effects, c, n, m - 1);
    }
  }

  /** The first of `keys` that `m` lacks. */
  function FirstMissing(keys: seq<string>, m: map<string, string>): (r: Option<string>)
    ensures r.None? <==> forall k :: k in keys ==> k in m
    ensures r.Some? ==> r.value !in m
    ensures r.Some? ==> exists i :: 0 <= i < |keys| && keys[i] == r.value && (forall j :: 0 <= j < i ==> keys[j] in m)
  {
    if keys == [] then None
    else if keys[0] !in m then Some(keys[0])
    else
      assert forall k :: k in keys <==> k == keys[0] || k in keys[1..];
      FirstMissing(keys[1..], m)
  }

  /** What validation demands, stated over the list of required keys. */
  function Validate(c: Config): Outcome<ConfigError> {
    if c.forms == [] then Fail(NoForm)
    else if c.categories == [] then Fail(NoCategory)
    else match FirstMissing(RequiredMetadata, c.metadata)
      case Some(k) => Fail(MissingMetadata(k))
      case None => Pass
  }

  /** Validation checks the forms, the categories, then each required key in turn. */
  lemma ValidateChecksInOrder(c: Config)
    ensures Validate(c) ==
      if c.forms == [] then Fail(NoForm)
      else if c.categories == [] then Fail(NoCategory)
      else if "title" !in c.metadata then Fail(MissingMetadata("title"))
      else if "description" !in c.metadata then Fail(MissingMetadata("description"))
      else if "version" !in c.metadata then Fail(MissingMetadata("version"))
      else if "author" !in c.metadata then Fail(MissingMetadata("author"))
      else if "email" !in c.metadata then Fail(MissingMetadata("email"))
      else if "generated" !in c.metadata then Fail(MissingMetadata("generated"))
      else Pass
  {
    var m := c.metadata;
    var k1 := ["description", "version", "author", "email", "generated"];
    var k2 := ["version", "author", "email", "generated"];
    var k3 := ["author", "email", "generated"];
    var k4 := ["email", "generated"];
    var k5 := ["generated"];
    assert RequiredMetadata[1..] == k1 && k1[1..] == k2 && k2[1..] == k3 && k3[1..] == k4 && k4[1..] == k5;
    assert FirstMissing(k5, m) == if "generated" !in m then Some("generated") else None;
    assert FirstMissing(k4, m) == if "email" !in m then Some("email") else FirstMissing(k5, m);
    assert FirstMissing(k3, m) == if "author" !in m then Some("author") else FirstMissing(k4, m);
    assert FirstMissing(k2, m) == if "version" !in m then Some("version") else FirstMissing(k3, m);
    assert FirstMissing(k1, m) == if "description" !in m then Some("description") else FirstMissing(k2, m);
  }

  class BundleConfig {
    var metadata: map<string, string>
    var categories: seq<string>
    var forms: seq<string>
    var rawConfig: string

    /** Allocation only; the emptiness check of the source's constructor is `Create`. */
    constructor (config: string)
      ensures rawConfig == config
      ensures metadata == map[] && categories == [] && forms == []
    {
      rawConfig := config;
      metadata := map[];
      categories := [];
      forms := [];
    }

    /** `new BundleConfig(config)`: throws for a null or empty text, else starts empty. */
    static method Create(config: Option<string>) returns (r: Result<BundleConfig, ConfigError>)
      ensures r.Failure? <==> config.None? || config.value == []
      ensures r.Failure? ==> r.error == EmptyConfig
      ensures r.Success? ==> fresh(r.value) && r.value.rawConfig == config.value
      ensures r.Success? ==> r.value.Contents() == Config(map[], [], [])
    {
      if config.None? || config.value == [] {
        return Failure(EmptyConfig);
      }
      var b := new BundleConfig(config.value);
      return Success(b);
    }

    function Contents(): Config
      reads this`metadata, this`categories, this`forms
    {
      Config(metadata, categories, forms)
    }

    /**
     * The body of `parseConfig`'s loop for one line: a category or form line appends
     * the trimmed text after the first tab, any other command line stores a metadata
     * entry, and a metadata line without a tab throws (`ok` is false, nothing changed).
     */
    method ApplyLine(token: string) returns (ok: bool)
      modifies this`metadata, this`categories, this`forms
      ensures ok <==> Apply(Classify(token), old(Contents())).Some?
      ensures Contents() == if ok then Apply(Classify(token), old(Contents())).value else old(Contents())
    {
      ok := true;
      if IsCommandLine(token) {
        if IsCategoryLine(token) {
          categories := categories + [Trim(AfterTab(token))];
        } else if IsFormLine(token) {
          forms := forms + [Trim(AfterTab(token))];
        } else {
          var tab := IndexOf(token, '\t');
          if tab < 1 {
            ok := false;
            return;
          }
          metadata := metadata[MetadataKey(token) := MetadataValue(token)];
        }
      }
    }

    /**
     * `parseConfig`: walks the Scanner's lines, updating the lists and the map in
     * place; a metadata line without a tab throws and leaves the earlier effects.
     */
    method ParseConfig() returns (r: Outcome<ConfigError>)
      modifies this`metadata, this`categories, this`forms
      ensures Contents() == ParseLines(ScannerLines(rawConfig), old(Contents())).config
      ensures r == match ParseLines(ScannerLines(rawConfig), old(Contents()))
        case Parsed(_) => Pass
        case Aborted(_, k) => Fail(MalformedLine(k))
    {
      var lines := ScannerLines(rawConfig);
      ghost var start := Contents();
      ghost var effects := Effects(lines);
      var i := 0;
      while i < |lines|
        invariant 0 <= i <= |lines|
        invariant Run(effects, i, start) == Parsed(Contents())
      {
        ghost var before := Contents();
        var ok := ApplyLine(lines[i]);
        assert effects[i] == Classify(lines[i]);
        RunStep(effects, start, i, before);
        if !ok {
          r := Fail(MalformedLine(i));
          return;
        }
        i := i + 1;
      }
      r := Pass;
    }

    /** `getMetadataValue`: null for a null or empty key, else the stored value or null. */
    function GetMetadataValue(key: Option<string>): (r: Option<string>)
      reads this`metadata
      ensures r.Some? <==> key.Some? && key.value != [] && key.value in metadata
      ensures r.Some? ==> r.value == metadata[key.value]
    {
      if key.None? || key.value == [] then None
      else if key.value in metadata then Some(metadata[key.value])
      else None
    }

    /** `validateConfig`: the checks in the source's order; the first that fails is reported. */
    method ValidateConfig() returns (r: Outcome<ConfigError>)
      ensures r == Validate(Contents())
    {
      ValidateChecksInOrder(Contents());
      if |forms| == 0 {
        return Fail(NoForm);
      }
      if |categories| == 0 {
        return Fail(NoCategory);
      }
      if "title" !in metadata {
        return Fail(MissingMetadata("title"));
      }
      if "description" !in metadata {
        return Fail(MissingMetadata("description"));
      }
      if "version" !in metadata {
        return Fail(MissingMetadata("version"));
      }
      if "author" !in metadata {
        return Fail(MissingMetadata("author"));
      }
      if "email" !in metadata {
        return Fail(MissingMetadata("email"));
      }
      if "generated" !in metadata {
        return Fail(MissingMetadata("generated"));
      }
      return Pass;
    }
  }
}
