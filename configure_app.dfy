/**
 * The configure form of one template: configuration values seeded from
 * the field defaults, single-field edits, the generate action and how its
 * result lands in the form, and the copy/download rules.
 */
module ConfigureApp {
  import opened Wrappers
  import opened Catalog
  import opened GenerateCompose

  /** A `Record<string, string>` in insertion order. */
  type ConfigValues = seq<(string, string)>

  /** No key occurs twice, as in a JavaScript object. */
  predicate DistinctKeys(cv: ConfigValues) {
    forall i, j :: 0 <= i < j < |cv| ==> cv[i].0 != cv[j].0
  }

  /** `cv[key]`: the value stored under `key`, if any. */
  function Lookup(cv: ConfigValues, key: string): (r: Option<string>)
    ensures r.None? <==> forall i :: 0 <= i < |cv| ==> cv[i].0 != key
    ensures r.Some? ==> exists i :: 0 <= i < |cv| && cv[i] == (key, r.value)
  {
    if cv == [] then None
    else if cv[0].0 == key then Some(cv[0].1)
    else Lookup(cv[1..], key)
  }

  /**
   * `{ ...cv, [key]: value }`: `key` now maps to `value`, every other key is
   * unchanged; an existing key keeps its position, a new one goes last.
   */
  function Assign(cv: ConfigValues, key: string, value: string): (r: ConfigValues)
    ensures Lookup(r, key) == Some(value)
    ensures forall k :: k != key ==> Lookup(r, k) == Lookup(cv, k)
    ensures Lookup(cv, key).None? ==> r == cv + [(key, value)]
    ensures Lookup(cv, key).Some? ==> |r| == |cv| && forall i :: 0 <= i < |cv| ==> r[i].0 == cv[i].0
  {
    if cv == [] then [(key, value)]
    else if cv[0].0 == key then
      var r := [(key, value)] + cv[1..];
      assert r[1..] == cv[1..];
      r
    else
      var rest := Assign(cv[1..], key, value);
      var r := [cv[0]] + rest;
      assert r[1..] == rest;
      r
  }

  /** Assigning keeps the keys distinct. */
  lemma AssignKeepsKeysDistinct(cv: ConfigValues, key: string, value: string)
    requires DistinctKeys(cv)
    ensures DistinctKeys(Assign(cv, key, value))
  {
    var r := Assign(cv, key, value);
    if Lookup(cv, key).None? {
      forall i, j | 0 <= i < j < |r| ensures r[i].0 != r[j].0 {
        if j == |cv| {
          assert r[i] == cv[i];
        }
      }
    }
  }

  /** A field's non-empty default, the value a fresh form holds for it. */
  function SeedOf(f: Field): Option<string> {
    if f.defaultValue.Some? && f.defaultValue.value != "" then f.defaultValue else None
  }

  /** The seeding loop as a fold: each field with a non-empty default assigns it under the field's id. */
  function DefaultValues(fields: seq<Field>): (cv: ConfigValues)
    ensures DistinctKeys(cv)
  {
    if fields == [] then []
    else
      var prev := DefaultValues(fields[..|fields| - 1]);
      var f := fields[|fields| - 1];
      if SeedOf(f).Some? then
        AssignKeepsKeysDistinct(prev, f.id, SeedOf(f).value);
        Assign(prev, f.id, SeedOf(f).value)
      else prev
  }

  /** The fields with a non-empty default, as entries in field order. */
  function SeedEntries(fields: seq<Field>): seq<(string, string)> {
    if fields == [] then []
    else
      var f := fields[|fields| - 1];
      SeedEntries(fields[..|fields| - 1]) + (if SeedOf(f).Some? then [(f.id, SeedOf(f).value)] else [])
  }

  /** Every seeded key is the id of some field. */
  lemma {:induction false} DefaultValuesKeys(fields: seq<Field>)
    ensures forall key :: Lookup(DefaultValues(fields), key).Some? ==> exists k :: 0 <= k < |fields| && fields[k].id == key
  {
    if fields != [] {
      var init := fields[..|fields| - 1];
      DefaultValuesKeys(init);
      forall key | Lookup(DefaultValues(fields), key).Some?
        ensures exists k :: 0 <= k < |fields| && fields[k].id == key
      {
        if key != fields[|fields| - 1].id {
          assert Lookup(DefaultValues(init), key).Some?;
          var k :| 0 <= k < |init| && init[k].id == key;
          assert fields[k].id == key;
        }
      }
    }
  }

  /** With distinct field ids, no field's id is seeded before that field is reached. */
  lemma LastIdUnseeded(fields: seq<Field>)
    requires fields != [] && FieldIdsDistinct(fields)
    ensures Lookup(DefaultValues(fields[..|fields| - 1]), fields[|fields| - 1].id).None?
  {
    DefaultValuesKeys(fields[..|fields| - 1]);
  }

  /** With distinct field ids, each field's id maps to exactly its seed. */
  lemma {:induction false} DefaultValuesLookup(fields: seq<Field>)
    requires FieldIdsDistinct(fields)
    ensures forall k :: 0 <= k < |fields| ==> Lookup(DefaultValues(fields), fields[k].id) == SeedOf(fields[k])
  {
    if fields != [] {
      var init := fields[..|fields| - 1];
      assert FieldIdsDistinct(init);
      DefaultValuesLookup(init);
      LastIdUnseeded(fields);
      forall k | 0 <= k < |init| ensures Lookup(DefaultValues(fields), fields[k].id) == SeedOf(fields[k]) {
        assert fields[k] == init[k];
      }
    }
  }

  /** With distinct field ids, the seeded values are one entry per field with a non-empty default, in field order. */
  lemma {:induction false} DefaultValuesOrder(fields: seq<Field>)
    requires FieldIdsDistinct(fields)
    ensures DefaultValues(fields) == SeedEntries(fields)
  {
    if fields != [] {
      var init := fields[..|fields| - 1];
      assert FieldIdsDistinct(init);
      DefaultValuesOrder(init);
      LastIdUnseeded(fields);
    }
  }

  /** The initial state of `configValues`: the `forEach` over the fields, assigning each non-empty default. */
  method SeedConfigValues(fields: seq<Field>) returns (cv: ConfigValues)
    ensures cv == DefaultValues(fields)
  {
    cv := [];
    var i := 0;
    while i < |fields|
      invariant 0 <= i <= |fields|
      invariant cv == DefaultValues(fields[..i])
    {
      var f := fields[i];
      assert fields[..i + 1][..i] == fields[..i];
      if f.defaultValue.Some? && f.defaultValue.value != "" {
        cv := Assign(cv, f.id, f.defaultValue.value);
      }
      i := i + 1;
    }
    assert fields[..|fields|] == fields;
  }

  /** The request the form sends for a template and its current values. */
  function RequestFor(template: AppTemplate, cv: ConfigValues): GenerateRequest {
    GenerateRequest(template.slug, template.name, Some(template.composeHints), cv)
  }

  /**
   * A well-formed template's request passes validation, whatever the
   * configuration values; every catalog template is well formed.
   */
  lemma TemplateRequestsPass(template: AppTemplate, cv: ConfigValues)
    requires TemplateWellFormed(template)
    ensures ParseRequest(RequestToJs(RequestFor(template, cv))) == Ok(RequestFor(template, cv))
  {
    ParseRequestToJs(RequestFor(template, cv));
  }

  /** A result the form shows as a compose file: a success with non-empty text. */
  predicate Succeeded(result: GenerateResult) {
    result.Generated? && result.compose != ""
  }

  const GENERATION_FAILED: string := "Generation failed."

  /** The error a result that did not succeed leaves in the form. */
  function ErrorMessage(result: GenerateResult): (message: string)
    ensures result.Failed? ==> message == result.error
    ensures result.Generated? ==> message == GENERATION_FAILED
  {
    if result.Failed? then result.error else GENERATION_FAILED
  }

  /** The input type of a field: only password fields hide their value. */
  function InputType(f: Field): (t: string)
    ensures t == "password" <==> f.fieldType == Password
    ensures t == "password" || t == "text"
  {
    if f.fieldType == Password then "password" else "text"
  }

  /** The value an input shows: the stored value, or the empty string. */
  function FieldValue(cv: ConfigValues, id: string): string {
    Lookup(cv, id).GetOr("")
  }

  /**
   * On a fresh form each field shows its non-empty default, or nothing;
   * after an edit the edited field shows the new value and the others are unchanged.
   */
  lemma FieldValues(fields: seq<Field>, k: nat, id: string, value: string, other: string)
    requires FieldIdsDistinct(fields) && k < |fields|
    requires other != id
    ensures FieldValue(DefaultValues(fields), fields[k].id) == SeedOf(fields[k]).GetOr("")
    ensures FieldValue(Assign(DefaultValues(fields), id, value), id) == value
    ensures FieldValue(Assign(DefaultValues(fields), id, value), other) == FieldValue(DefaultValues(fields), other)
  {
    DefaultValuesLookup(fields);
  }

  const DOWNLOAD_PREFIX: string := "docker-compose-"
  const DOWNLOAD_SUFFIX: string := ".yml"

  /** The download's file name, from which the slug can be read back. */
  function DownloadName(slug: string): (name: string)
    ensures |name| == |DOWNLOAD_PREFIX| + |slug| + |DOWNLOAD_SUFFIX|
    ensures name[..|DOWNLOAD_PREFIX|] == DOWNLOAD_PREFIX
    ensures name[|DOWNLOAD_PREFIX|..|name| - |DOWNLOAD_SUFFIX|] == slug
    ensures name[|name| - |DOWNLOAD_SUFFIX|..] == DOWNLOAD_SUFFIX
  {
    DOWNLOAD_PREFIX + slug + DOWNLOAD_SUFFIX
  }

  /** Distinct slugs download under distinct names. */
  lemma DownloadNameInjective(a: string, b: string)
    requires DownloadName(a) == DownloadName(b)
    ensures a == b
  {
    var n := DownloadName(a);
    assert a == n[|DOWNLOAD_PREFIX|..|n| - |DOWNLOAD_SUFFIX|];
  }

  /** A file the download button saves. */
  datatype Download = Download(fileName: string, content: string, mimeType: string)

  /** The configure form's state. */
  class ConfigureForm {
    const template: AppTemplate
    var configValues: ConfigValues
    var compose: Option<string>
    var error: Option<string>

    /** Keys are distinct, and a shown compose file is never empty. */
    ghost predicate Valid()
      reads this
    {
      DistinctKeys(configValues) && (compose.Some? ==> compose.value != "")
    }

    /** A fresh form: values seeded from the defaults, no compose file, no error. */
    constructor(template: AppTemplate)
      ensures this.template == template
      ensures configValues == DefaultValues(template.fields)
      ensures compose == None && error == None
      ensures Valid()
    {
      this.template := template;
      var seeded := SeedConfigValues(template.fields);
      configValues := seeded;
      compose := None;
      error := None;
    }

    /** `handleFieldChange`: stores one value and leaves everything else alone. */
    method SetField(id: string, value: string)
      requires Valid()
      modifies this
      ensures configValues == Assign(old(configValues), id, value)
      ensures compose == old(compose) && error == old(error)
      ensures Valid()
    {
      AssignKeepsKeysDistinct(configValues, id, value);
      configValues := Assign(configValues, id, value);
    }

    /** The first half of `handleGenerate`: clear the error and build the request from the current values. */
    method StartGenerate() returns (input: JsValue)
      requires Valid()
      modifies this
      ensures input == RequestToJs(RequestFor(template, configValues))
      ensures error == None
      ensures configValues == old(configValues) && compose == old(compose)
      ensures Valid()
    {
      error := None;
      input := RequestToJs(RequestFor(template, configValues));
    }

    /** The second half: a success with text replaces the compose file; anything else sets the error and keeps it. */
    method ApplyResult(result: GenerateResult)
      requires Valid()
      modifies this
      ensures configValues == old(configValues)
      ensures Succeeded(result) ==> compose == Some(result.compose) && error == old(error)
      ensures !Succeeded(result) ==> compose == old(compose) && error == Some(ErrorMessage(result))
      ensures Valid()
    {
      if result.Generated? && result.compose != "" {
        compose := Some(result.compose);
      } else {
        error := Some(if result.Failed? then result.error else GENERATION_FAILED);
      }
    }

    /**
     * `handleGenerate` end to end: one run of the generator on the template
     * and the values at the time of the click; afterwards either the new
     * compose file and no error, or the old compose file and an error.
     */
    method Generate(env: Env, provider: ChatRequest -> Reply) returns (run: Run)
      requires Valid()
      modifies this
      ensures run == GenerateCompose.GenerateCompose(RequestToJs(RequestFor(template, old(configValues))), env, provider)
      ensures configValues == old(configValues)
      ensures Succeeded(run.result) ==> compose == Some(run.result.compose) && error == None
      ensures !Succeeded(run.result) ==> compose == old(compose) && error == Some(ErrorMessage(run.result))
      ensures Valid()
    {
      var input := StartGenerate();
      run := GenerateCompose.GenerateCompose(input, env, provider);
      ApplyResult(run.result);
    }

    /** `handleCopy`: the text put on the clipboard, none while there is no compose file. */
    function CopyText(): (text: Option<string>)
      reads this
      ensures text.Some? <==> compose.Some? && compose.value != ""
      ensures text.Some? ==> text == compose
    {
      if compose.Some? && compose.value != "" then compose else None
    }

    /** `handleDownload`: the file saved, none while there is no compose file. */
    function DownloadFile(): (file: Option<Download>)
      reads this
      ensures file.Some? <==> CopyText().Some?
      ensures file.Some? ==> file.value == Download(DownloadName(template.slug), compose.value, "text/yaml")
    {
      if compose.Some? && compose.value != "" then Some(Download(DownloadName(template.slug), compose.value, "text/yaml"))
      else None
    }
  }
}
