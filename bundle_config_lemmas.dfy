/** What parsing and validating a bundle configuration guarantee. */
module BundleConfigProperties {
  import opened Wrappers
  import opened JavaText
  import opened BundleConfigModel

  /** Reference definition: the texts of the category effects, in order. */
  function CategoryTexts(es: seq<LineEffect>): seq<string> {
    if es == [] then []
    else CategoryTexts(es[..|es| - 1]) + (if es[|es| - 1].AddCategory? then [es[|es| - 1].text] else [])
  }

  /** Reference definition: the texts of the form effects, in order. */
  function FormTexts(es: seq<LineEffect>): seq<string> {
    if es == [] then []
    else FormTexts(es[..|es| - 1]) + (if es[|es| - 1].AddForm? then [es[|es| - 1].text] else [])
  }

  /** A category or form line without a tab appends the whole trimmed line, marker included. */
  lemma ListLineWithoutTab(line: string)
    requires '\t' !in line
    ensures IsCategoryLine(line) ==> Classify(line) == AddCategory(Trim(line))
    ensures IsFormLine(line) ==> Classify(line) == AddForm(Trim(line))
  {
  }

  /** A later metadata line with the same key replaces the earlier value. */
  lemma MetadataOverwrite(first: string, second: string, c: Config)
    requires IsMetadataLine(first) && '\t' in first
    requires IsMetadataLine(second) && '\t' in second
    requires MetadataKey(first) == MetadataKey(second)
    ensures Apply(Classify(first), c).Some?
    ensures Apply(Classify(second), Apply(Classify(first), c).value) ==
      Some(c.(metadata := c.metadata[MetadataKey(second) := MetadataValue(second)]))
  {
    var k := MetadataKey(second);
    assert c.metadata[k := MetadataValue(first)][k := MetadataValue(second)] == c.metadata[k := MetadataValue(second)];
  }

  /** Running effects never removes anything, and each one adds at most one list entry. */
  lemma {:induction false} RunOnlyGrows(es: seq<LineEffect>, n: nat, c: Config)
    requires n <= |es|
    ensures var after := Run(es, n, c).config;
      c.categories <= after.categories && c.forms <= after.forms &&
      c.metadata.Keys <= after.metadata.Keys &&
      |after.categories| + |after.forms| <= |c.categories| + |c.forms| + n
  {
    if n > 0 {
      RunOnlyGrows(es, n - 1, c);
      var previous := Run(es, n - 1, c);
      if previous.Parsed? && Apply(es[n - 1], previous.config).Some? {
        var after := Apply(es[n - 1], previous.config).value;
        assert previous.config.categories <= after.categories;
        assert previous.config.forms <= after.forms;
      }
    }
  }

  /** A run stops exactly at the first effect that throws, keeping what came before it. */
  lemma {:induction false} RunStopsAtFirstThrow(es: seq<LineEffect>, n: nat, c: Config)
    requires n <= |es|
    ensures Run(es, n, c).Aborted? <==> exists j :: 0 <= j < n && es[j].Throws?
    ensures Run(es, n, c).Aborted? ==>
      var k := Run(es, n, c).line;
      k < n && es[k].Throws? && (forall j :: 0 <= j < k ==> !es[j].Throws?) &&
      Run(es, k, c) == Parsed(Run(es, n, c).config)
  {
    if n > 0 {
      RunStopsAtFirstThrow(es, n - 1, c);
    }
  }

  /** Parsing the lines stops exactly at the first metadata line without a tab. */
  lemma ParseAbortsAtFirstMalformed(lines: seq<string>, c: Config)
    ensures ParseLines(lines, c).Aborted? <==> exists j :: 0 <= j < |lines| && IsMalformedLine(lines[j])
    ensures ParseLines(lines, c).Aborted? ==>
      var k := ParseLines(lines, c).line;
      k < |lines| && IsMalformedLine(lines[k]) && forall j :: 0 <= j < k ==> !IsMalformedLine(lines[j])
  {
    var es := Effects(lines);
    forall j | 0 <= j < |lines|
      ensures es[j].Throws? <==> IsMalformedLine(lines[j])
    {
      ClassifyMeaning(lines[j]);
    }
    RunStopsAtFirstThrow(es, |lines|, c);
  }

  /**
   * The lists hold, after whatever they held before, the texts of the category and
   * form effects in order, up to the effect where the run stopped.
   */
  lemma {:induction false} RunCollectsLists(es: seq<LineEffect>, n: nat, c: Config)
    requires n <= |es|
    ensures var run := Run(es, n, c);
      var consumed := if run.Parsed? then n else run.line;
      consumed <= n &&
      run.config.categories == c.categories + CategoryTexts(es[..consumed]) &&
      run.config.forms == c.forms + FormTexts(es[..consumed])
  {
    if n > 0 {
      RunCollectsLists(es, n - 1, c);
      var previous := Run(es, n - 1, c);
      assert es[..n][..n - 1] == es[..n - 1];
      if previous.Parsed? {
        var e := es[n - 1];
        assert es[..n][n - 1] == e;
        if Apply(e, previous.config).Some? {
          if e.AddCategory? {
            assert c.categories + CategoryTexts(es[..n - 1]) + [e.text] ==
              c.categories + (CategoryTexts(es[..n - 1]) + [e.text]);
          } else if e.AddForm? {
            assert c.forms + FormTexts(es[..n - 1]) + [e.text] ==
              c.forms + (FormTexts(es[..n - 1]) + [e.text]);
          }
        }
      }
    }
  }

  /** Whether effect `e` stores a value under `key`. */
  predicate Sets(e: LineEffect, key: string) {
    e.SetMetadata? && e.key == key
  }

  /** After a complete run, a key holds the value of the last effect that set it. */
  lemma {:induction false} LastSetterWins(es: seq<LineEffect>, n: nat, c: Config, j: nat, key: string)
    requires j < n <= |es|
    requires Sets(es[j], key)
    requires forall l :: j < l < n ==> !Sets(es[l], key)
    requires Run(es, n, c).Parsed?
    ensures key in Run(es, n, c).config.metadata
    ensures Run(es, n, c).config.metadata[key] == es[j].value
  {
    if j < n - 1 {
      LastSetterWins(es, n - 1, c, j, key);
    }
  }

  /** After a complete run, a key no effect sets keeps its presence and value. */
  lemma {:induction false} UnsetKeyUnchanged(es: seq<LineEffect>, n: nat, c: Config, key: string)
    requires n <= |es|
    requires forall l :: 0 <= l < n ==> !Sets(es[l], key)
    requires Run(es, n, c).Parsed?
    ensures key in Run(es, n, c).config.metadata <==> key in c.metadata
    ensures key in c.metadata ==> Run(es, n, c).config.metadata[key] == c.metadata[key]
  {
    if n > 0 {
      UnsetKeyUnchanged(es, n - 1, c, key);
    }
  }

  /** Validation passes iff there is a form, a category and every required metadata key. */
  lemma ValidatePassIff(c: Config)
    ensures Validate(c) == Pass <==>
      c.forms != [] && c.categories != [] && forall k :: k in RequiredMetadata ==> k in c.metadata
  {
  }

  /** A failed validation names the first requirement, in checking order, that is not met. */
  lemma ValidateReportsFirstMissing(c: Config, key: string)
    requires Validate(c) == Fail(MissingMetadata(key))
    ensures c.forms != [] && c.categories != []
    ensures key in RequiredMetadata && key !in c.metadata
    ensures exists i :: (0 <= i < |RequiredMetadata| && RequiredMetadata[i] == key &&
                         forall j :: 0 <= j < i ==> RequiredMetadata[j] in c.metadata)
  {
  }
}
