/**
 * The add-on options of barcodebuddy/app/config.py: the options file is read
 * once into a dictionary, and every setting is a getter over it with a
 * default, stripping and treating blank text as unset where the source does.
 */
module AddonConfig {
  import opened Wrappers
  import opened Text

  /** An option value as the options file holds it. */
  datatype Value = Str(text: string) | Flag(flag: bool)

  /** The language codes `language` accepts. */
  const Languages: seq<string> := ["en", "de", "fr", "es"]

  /** The options dictionary, typed as the add-on schema declares each key. */
  datatype Config = Config(options: map<string, Value>) {

    /** Text keys hold text and flag keys hold flags; any other key may hold anything. */
    predicate WellTyped() {
      && (forall k :: k in options && k in TextKeys() ==> options[k].Str?)
      && (forall k :: k in options && k in FlagKeys() ==> options[k].Flag?)
    }

    static function TextKeys(): set<string> {
      {"grocy_url", "grocy_api_key", "barcode_add", "barcode_consume", "barcode_quantity_prefix", "language"}
    }

    static function FlagKeys(): set<string> {
      {"debug", "enable_openfoodfacts", "enable_upcdatabase"}
    }

    /** `self._config.get(key, default)` for a text option. */
    function TextOr(key: string, default: string): string
      requires WellTyped() && key in TextKeys()
    {
      if key in options then options[key].text else default
    }

    /** `self._config.get(key, default)` for a flag option. */
    function FlagOr(key: string, default: bool): bool
      requires WellTyped() && key in FlagKeys()
    {
      if key in options then options[key].flag else default
    }

    /** `get(key, '').strip()`, with blank text as `None` (lines 21-31). */
    function StrippedOrNone(key: string): (r: Option<string>)
      requires WellTyped() && key in TextKeys()
      ensures r.None? <==> key !in options || AllSpace(options[key].text)
      ensures r.Some? ==> r.value == Strip(options[key].text) && r.value != ""
    {
      var v := Strip(TextOr(key, ""));
      StripFacts(TextOr(key, ""));
      if v != "" then Some(v) else None
    }

    /** `grocy_url` (lines 21-25). */
    function GrocyUrl(): Option<string>
      requires WellTyped()
    {
      StrippedOrNone("grocy_url")
    }

    /** `grocy_api_key` (lines 27-31). */
    function GrocyApiKey(): Option<string>
      requires WellTyped()
    {
      StrippedOrNone("grocy_api_key")
    }

    /** `has_grocy` (lines 38-41). */
    function HasGrocy(): bool
      requires WellTyped()
    {
      GrocyUrl().Some? && GrocyApiKey().Some?
    }

    /** `debug` (lines 33-36). */
    function Debug(): bool
      requires WellTyped()
    {
      FlagOr("debug", false)
    }

    /** `barcode_add` (lines 43-46). */
    function BarcodeAdd(): string
      requires WellTyped()
    {
      TextOr("barcode_add", "BBUDDY-ADD")
    }

    /** `barcode_consume` (lines 48-51). */
    function BarcodeConsume(): string
      requires WellTyped()
    {
      TextOr("barcode_consume", "BBUDDY-CONSUME")
    }

    /** `barcode_quantity_prefix` (lines 53-56). */
    function BarcodeQuantityPrefix(): string
      requires WellTyped()
    {
      TextOr("barcode_quantity_prefix", "BBUDDY-Q-")
    }

    /** `enable_openfoodfacts` (lines 58-61). */
    function EnableOpenFoodFacts(): bool
      requires WellTyped()
    {
      FlagOr("enable_openfoodfacts", true)
    }

    /** `enable_upcdatabase` (lines 63-66). */
    function EnableUpcDatabase(): bool
      requires WellTyped()
    {
      FlagOr("enable_upcdatabase", true)
    }

    /** `language` (lines 68-75): the stripped setting when it is an accepted code, otherwise `de`. */
    function Language(): (r: string)
      requires WellTyped()
      ensures r in Languages
      ensures Strip(TextOr("language", "de")) in Languages ==> r == Strip(TextOr("language", "de"))
      ensures Strip(TextOr("language", "de")) !in Languages ==> r == "de"
    {
      var lang := Strip(TextOr("language", "de"));
      if lang in Languages then lang else "de"
    }
  }

  /** `_load_config` (lines 14-19): the parsed options file, or an empty dictionary when there is none. */
  function Load(file: Option<map<string, Value>>): (c: Config)
    ensures file.None? ==> c.options == map[]
    ensures file.Some? ==> c.options == file.value
  {
    Config(file.GetOr(map[]))
  }

  /**
   * Grocy counts as configured exactly when both the URL and the API key are
   * present and hold something other than whitespace; the values used are
   * the stripped texts.
   */
  lemma HasGrocyIff(c: Config)
    requires c.WellTyped()
    ensures c.HasGrocy() <==>
      && "grocy_url" in c.options && !AllSpace(c.options["grocy_url"].text)
      && "grocy_api_key" in c.options && !AllSpace(c.options["grocy_api_key"].text)
    ensures c.GrocyUrl().Some? ==> c.GrocyUrl().value == Strip(c.options["grocy_url"].text)
  {
  }

  /** A configured URL or key never starts or ends with whitespace. */
  lemma SettingsTrimmed(c: Config)
    requires c.WellTyped()
    ensures c.GrocyUrl().Some? ==> var u := c.GrocyUrl().value; !IsSpace(u[0]) && !IsSpace(u[|u| - 1])
    ensures c.GrocyApiKey().Some? ==> var k := c.GrocyApiKey().value; !IsSpace(k[0]) && !IsSpace(k[|k| - 1])
  {
    if c.GrocyUrl().Some? {
      StripFacts(c.options["grocy_url"].text);
    }
    if c.GrocyApiKey().Some? {
      StripFacts(c.options["grocy_api_key"].text);
    }
  }

  /** A language code surrounded by whitespace is still accepted, and an unknown code falls back to German. */
  lemma LanguageExamples()
    ensures Config(map["language" := Str(" fr ")]).Language() == "fr"
    ensures Config(map["language" := Str("it")]).Language() == "de"
  {
    var fr := " fr ";
    assert LStrip(fr) == "fr " by { assert fr[1..] == "fr "; }
    assert RStrip("fr ") == "fr" by { assert "fr "[..2] == "fr"; }
  }

  /**
   * Without an options file every getter gives its default: the built-in
   * mode and quantity barcodes, debug off, both lookups on, German, and no
   * Grocy.
   */
  lemma MissingFileDefaults()
    ensures var c := Load(None);
      && c.WellTyped()
      && c.GrocyUrl() == None && c.GrocyApiKey() == None && !c.HasGrocy()
      && !c.Debug()
      && c.BarcodeAdd() == "BBUDDY-ADD" && c.BarcodeConsume() == "BBUDDY-CONSUME"
      && c.BarcodeQuantityPrefix() == "BBUDDY-Q-"
      && c.EnableOpenFoodFacts() && c.EnableUpcDatabase()
      && c.Language() == "de"
  {
    var c := Load(None);
    assert LStrip("de") == "de";
    assert RStrip("de") == "de";
    assert LStrip("") == "";
    assert RStrip("") == "";
  }
}
