/**
 * The plugin's site configuration, the check that it is complete, and the
 * folder-name shortening the block uses for display.
 */
module LibConfig {
  import opened Php

  /** The site settings of the plugin, as the strings Moodle stores. */
  datatype Config = Config(
    apihost: string,
    apiinstance: string,
    apikey: string,
    apiusername: string,
    creatorrolemap: string,
    ajaxfirstload: string)

  /** The message for an incomplete site configuration. */
  const NO_SITE_CONFIG: string :=
    "PanoptoLite global (site) configuration incomplete. Contact your system admin. for assistance."

  /** The message for a block with no folder chosen. */
  const NO_INSTANCE_CONFIG: string :=
    "PanoptoLite block has not been configured. Contact your instructor for assistance."

  /**
   * `plugin_configured`: there is a configuration and none of host,
   * instance, key and username is empty.
   */
  predicate PluginConfigured(config: Option<Config>)
  {
    && config.Some?
    && !EmptyString(config.value.apihost) && !EmptyString(config.value.apiinstance)
    && !EmptyString(config.value.apikey) && !EmptyString(config.value.apiusername)
  }

  /**
   * The first call of `get_pluginconfig`: the site configuration when it is
   * complete, null otherwise.
   */
  function PluginConfig(site: Option<Config>): (config: Option<Config>)
    ensures config.Some? <==> PluginConfigured(site)
    ensures config.Some? ==> config == site && PluginConfigured(config)
  {
    if site.Some? && PluginConfigured(site) then site else None
  }

  /**
   * One call of `get_pluginconfig` against its static memo: with nothing
   * stored, the site settings are stored and answered when complete, null
   * otherwise; with something stored, that is answered unchecked. The pair
   * is the answer and the memo afterwards. A stored object never compares
   * equal to null, so an incomplete configuration, once stored, stays.
   */
  function Memoised(stored: Option<Config>, site: Option<Config>): (Option<Config>, Option<Config>)
  {
    if stored.None? then (PluginConfig(site), site) else (stored, stored)
  }

  /** The first call answers null for incomplete settings; every later call answers those settings. */
  lemma {:induction false} IncompleteConfigStays(site: Option<Config>, later: Option<Config>)
    requires site.Some? && !PluginConfigured(site)
    ensures Memoised(None, site).0 == None
    ensures var stored := Memoised(None, site).1;
            Memoised(stored, later).0 == site && Memoised(stored, later).1 == stored
  {
  }

  /** Complete settings are answered by the first call and by every later one, whatever the site holds then. */
  lemma {:induction false} CompleteConfigStays(site: Option<Config>, later: Option<Config>)
    requires PluginConfigured(site)
    ensures Memoised(None, site).0 == site
    ensures Memoised(Memoised(None, site).1, later).0 == site
  {
  }

  /** The static `$pluginconfig` of `get_pluginconfig`. */
  class ConfigMemo {
    var stored: Option<Config>

    constructor ()
      ensures stored == None
    {
      stored := None;
    }

    /** `get_pluginconfig`, given what `get_config` reads from the site settings. */
    method Get(site: Option<Config>) returns (config: Option<Config>)
      modifies this
      ensures (config, stored) == Memoised(old(stored), site)
    {
      if stored.None? {
        stored := site;
        if site.None? || !PluginConfigured(site) {
          return None;
        }
      }
      return stored;
    }
  }

  /** A configuration flag is set when its string is not empty(). */
  predicate Flag(s: string)
  {
    !EmptyString(s)
  }

  /** The longest name shown unshortened. */
  const MAX_NAME: nat := 25

  /**
   * `prune_folder_name`: the trimmed name when it fits in 25 characters;
   * otherwise a prefix of it followed by "...", cut at the last space among
   * the first 25 characters when that space is past position 15, and after
   * 22 characters otherwise. An empty() name gives "".
   */
  function PruneFolderName(foldername: string): (r: string)
    ensures EmptyString(foldername) ==> r == ""
    ensures !EmptyString(foldername) && |Trim(foldername)| <= MAX_NAME ==> r == Trim(foldername)
    ensures !EmptyString(foldername) && |Trim(foldername)| > MAX_NAME ==>
              var t := Trim(foldername);
              var k := |r| - 3;
              && 19 <= |r| <= 27
              && r[k..] == "..." && r[..k] == t[..k]
              && ((16 <= k < MAX_NAME && t[k] == ' ' && forall j :: k < j < MAX_NAME ==> t[j] != ' ')
                  || (k == 22 && forall j :: 16 <= j < MAX_NAME ==> t[j] != ' '))
  {
    if EmptyString(foldername) then ""
    else
      var t := Trim(foldername);
      if |t| <= MAX_NAME then t else Shorten(t)
  }

  /** The cut `prune_folder_name` makes in a trimmed name longer than 25 characters. */
  function Shorten(t: string): (r: string)
    requires |t| > MAX_NAME
    ensures var k := |r| - 3;
            && 19 <= |r| <= 27
            && r[k..] == "..." && r[..k] == t[..k]
            && ((16 <= k < MAX_NAME && t[k] == ' ' && forall j :: k < j < MAX_NAME ==> t[j] != ' ')
                || (k == 22 && forall j :: 16 <= j < MAX_NAME ==> t[j] != ' '))
  {
    var pos := LastIndexOf(t[..MAX_NAME], ' ');
    if pos == -1 then t[..22] + "..."
    else if pos > 15 then t[..pos] + "..."
    else t[..22] + "..."
  }
}
