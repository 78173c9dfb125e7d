/**
 * The base of the field diff builder plugins: how a plugin's configuration
 * is completed with defaults, updated from its settings form, and written to
 * the `diff.plugins` configuration under the field type it applies to.
 *
 * Configuration values are PHP scalars, modelled as `Value`; the
 * `diff.plugins` configuration object is a map from key to stored entry.
 */
module FieldDiffBuilderBase {
  import opened Wrappers

  datatype Value = Int(i: int) | Str(s: string)

  const ShowHeaderKey: string := "show_header"
  const MarkdownKey: string := "markdown"
  /** Internal marker naming the field type; never persisted in the settings. */
  const FieldTypeKey: string := "#field_type"

  /** What `diff.plugins` holds per field type: `['type' => plugin id, 'settings' => ...]`. */
  datatype PluginEntry = PluginEntry(pluginType: string, settings: map<string, Value>)

  /** The `diff.plugins` configuration object, shared by all builder plugins. */
  class PluginsConfig {
    var data: map<string, PluginEntry>

    constructor (data: map<string, PluginEntry>)
      ensures this.data == data
    {
      this.data := data;
    }
  }

  /** The callbacks the `markdown` select offers, in the order offered. */
  function MarkdownOptions(): (options: seq<string>)
    ensures |options| == 3
    ensures options[0] != options[1] && options[0] != options[2] && options[1] != options[2]
    ensures "drupal_html_to_text" in options && "filter_xss" in options && "filter_xss_all" in options
  {
    ["drupal_html_to_text", "filter_xss", "filter_xss_all"]
  }

  /** defaultConfiguration: show the field title, and clean markup with one of the offered callbacks. */
  function DefaultConfiguration(): (defaults: map<string, Value>)
    ensures defaults.Keys == {ShowHeaderKey, MarkdownKey}
    ensures defaults[ShowHeaderKey] == Int(1)
    ensures defaults[MarkdownKey].Str? && defaults[MarkdownKey].s in MarkdownOptions()
    ensures defaults[MarkdownKey] == Str(MarkdownOptions()[0])
  {
    map[ShowHeaderKey := Int(1), MarkdownKey := Str("drupal_html_to_text")]
  }

  /**
   * PHP's `$configuration += $defaults`: every default key is present
   * afterwards, and a key already present keeps its value.
   */
  function MergeDefaults(configuration: map<string, Value>, defaults: map<string, Value>): (merged: map<string, Value>)
    ensures merged.Keys == configuration.Keys + defaults.Keys
    ensures forall k :: k in configuration ==> merged[k] == configuration[k]
    ensures forall k :: k in defaults && k !in configuration ==> merged[k] == defaults[k]
  {
    defaults + configuration
  }

  /**
   * The loop of setConfiguration building `$field_type_settings`: the
   * configuration with the `#field_type` key, and only that key, removed.
   */
  method FieldTypeSettings(configuration: map<string, Value>) returns (settings: map<string, Value>)
    ensures FieldTypeKey !in settings
    ensures settings.Keys == configuration.Keys - {FieldTypeKey}
    ensures forall k :: k in settings ==> settings[k] == configuration[k]
  {
    settings := map[];
    var remaining := configuration.Keys;
    while remaining != {}
      invariant remaining <= configuration.Keys
      invariant settings.Keys == configuration.Keys - remaining - {FieldTypeKey}
      invariant forall k :: k in settings ==> settings[k] == configuration[k]
      decreases remaining
    {
      var key :| key in remaining;
      if key != FieldTypeKey {
        settings := settings[key := configuration[key]];
      }
      remaining := remaining - {key};
    }
  }

  /** What the settings form shows: the two options with their current values. */
  datatype ConfigurationForm = ConfigurationForm(
    showHeaderDefault: Value,
    markdownDefault: Value,
    markdownOptions: seq<string>)

  class FieldDiffBuilder {
    const pluginId: string
    const pluginsConfig: PluginsConfig
    var configuration: map<string, Value>

    /** Every default key stays present once the constructor has merged them in. */
    ghost predicate Valid()
      reads this
    {
      DefaultConfiguration().Keys <= configuration.Keys
    }

    constructor (configuration: map<string, Value>, pluginId: string, pluginsConfig: PluginsConfig)
      ensures Valid()
      ensures this.configuration == MergeDefaults(configuration, DefaultConfiguration())
      ensures this.pluginId == pluginId && this.pluginsConfig == pluginsConfig
    {
      this.pluginId := pluginId;
      this.pluginsConfig := pluginsConfig;
      this.configuration := MergeDefaults(configuration, DefaultConfiguration());
    }

    /** buildConfigurationForm: the current values as defaults, and the three markdown callbacks. */
    function BuildConfigurationForm(): (form: ConfigurationForm)
      reads this
      requires Valid()
      ensures form.showHeaderDefault == configuration[ShowHeaderKey]
      ensures form.markdownDefault == configuration[MarkdownKey]
      ensures form.markdownOptions == MarkdownOptions()
    {
      ConfigurationForm(configuration[ShowHeaderKey], configuration[MarkdownKey], MarkdownOptions())
    }

    /** getConfiguration: the `diff.plugins` entry keyed by the plugin id (None is NULL). */
    function GetConfiguration(): (entry: Option<PluginEntry>)
      reads pluginsConfig
      ensures entry.Some? <==> pluginId in pluginsConfig.data
      ensures entry.Some? ==> entry.value == pluginsConfig.data[pluginId]
    {
      if pluginId in pluginsConfig.data then Some(pluginsConfig.data[pluginId]) else None
    }

    /**
     * setConfiguration: stores `{type: plugin id, settings}` under the field
     * type named by `#field_type`; no other key of `diff.plugins` changes.
     * getConfiguration reads by plugin id, so it sees the new entry only
     * when the field type equals the plugin id.
     */
    method SetConfiguration(configuration: map<string, Value>)
      requires FieldTypeKey in configuration && configuration[FieldTypeKey].Str?
      modifies pluginsConfig
      ensures pluginsConfig.data ==
        old(pluginsConfig.data)[configuration[FieldTypeKey].s := PluginEntry(pluginId, configuration - {FieldTypeKey})]
      ensures configuration[FieldTypeKey].s == pluginId ==>
        GetConfiguration() == Some(PluginEntry(pluginId, configuration - {FieldTypeKey}))
      ensures configuration[FieldTypeKey].s != pluginId ==> GetConfiguration() == old(GetConfiguration())
    {
      var fieldTypeSettings := FieldTypeSettings(configuration);
      assert fieldTypeSettings == configuration - {FieldTypeKey};
      var fieldType := PluginEntry(pluginId, fieldTypeSettings);
      pluginsConfig.data := pluginsConfig.data[configuration[FieldTypeKey].s := fieldType];
    }

    /**
     * submitConfigurationForm: overwrites `show_header`, `markdown` and
     * `#field_type` from the submitted form, keeps every other key, and
     * persists the result.
     */
    method SubmitConfigurationForm(showHeader: Value, markdown: Value, fieldType: string)
      modifies this, pluginsConfig
      ensures old(Valid()) ==> Valid()
      ensures configuration ==
        old(configuration)[ShowHeaderKey := showHeader][MarkdownKey := markdown][FieldTypeKey := Str(fieldType)]
      ensures pluginsConfig.data ==
        old(pluginsConfig.data)[fieldType := PluginEntry(pluginId, configuration - {FieldTypeKey})]
    {
      configuration := configuration[ShowHeaderKey := showHeader];
      configuration := configuration[MarkdownKey := markdown];
      configuration := configuration[FieldTypeKey := Str(fieldType)];
      SetConfiguration(configuration);
    }
  }
}
