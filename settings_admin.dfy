/**
 * The admin settings page: the `site_settings` rows read into a dictionary
 * and then into typed settings, and the five rows written back on save.
 */
module SettingsAdmin {
  import opened Common
  import opened JsNumber
  import opened KeyValue

  /** The settings the page edits; a limit that is NaN is `None`. */
  datatype SiteSettings = SiteSettings(
    dailyOrderLimit: Option<int>,
    bannerEnabled: bool,
    bannerText: string,
    bannerColor: string,
    maintenanceMode: bool)

  const DefaultColor := "#EE4D2D"

  /** The page's state before anything is fetched. */
  const InitialSettings := SiteSettings(Some(100), false, "", DefaultColor, false)

  /** `parseInt("100")`. */
  lemma HundredParses()
    ensures ParseInt("100") == Some(100)
  {
    assert NatToString(1) == [DigitChar(1)];
    assert NatToString(10) == NatToString(1) + [DigitChar(0)];
    assert NatToString(100) == NatToString(10) + [DigitChar(0)];
    assert DigitChar(1) == '1' && DigitChar(0) == '0';
    assert IntToString(100) == "100";
    IntToStringRoundTrip(100);
  }

  /** The parse `fetchSettings` applies to the dictionary. */
  function ParseSettings(m: map<string, string>): (s: SiteSettings)
    ensures !Truthy(Lookup(m, "daily_order_limit")) ==> s.dailyOrderLimit == Some(100)
    ensures Truthy(Lookup(m, "daily_order_limit")) ==> s.dailyOrderLimit == ParseInt(m["daily_order_limit"])
    ensures s.bannerEnabled <==> Lookup(m, "banner_enabled") == Some("true")
    ensures s.maintenanceMode <==> Lookup(m, "maintenance_mode") == Some("true")
    ensures s.bannerText == Lookup(m, "banner_text").GetOr("")
    ensures s.bannerColor != ""
    ensures Truthy(Lookup(m, "banner_color")) ==> s.bannerColor == m["banner_color"]
  {
    HundredParses();
    SiteSettings(
      ParseInt(OrElse(Lookup(m, "daily_order_limit"), "100")),
      Lookup(m, "banner_enabled") == Some("true"),
      OrElse(Lookup(m, "banner_text"), ""),
      OrElse(Lookup(m, "banner_color"), DefaultColor),
      Lookup(m, "maintenance_mode") == Some("true"))
  }

  /** `b.toString()`. */
  function BoolString(b: bool): (s: string)
    ensures s == "true" <==> b
  {
    if b then "true" else "false"
  }

  /** The five `(key, value)` pairs `handleSave` upserts. */
  function Serialise(s: SiteSettings): (pairs: seq<(string, string)>)
    ensures |pairs| == 5
    ensures UniqueKeys(pairs)
  {
    [("daily_order_limit", NumberToString(s.dailyOrderLimit)),
     ("banner_enabled", BoolString(s.bannerEnabled)),
     ("banner_text", s.bannerText),
     ("banner_color", s.bannerColor),
     ("maintenance_mode", BoolString(s.maintenanceMode))]
  }

  /** The value stored under a key after saving. */
  lemma SavedValue(m: map<string, string>, s: SiteSettings, j: nat)
    requires j < 5
    ensures Lookup(Upsert(m, Serialise(s)), Serialise(s)[j].0) == Some(Serialise(s)[j].1)
  {
    var pairs := Serialise(s);
    UpsertLookup(m, pairs, pairs[j].0);
    LastWinsValue(pairs, j);
  }

  /**
   * Saving and then reading the table back gives the same settings, whatever
   * it held before, except that an empty colour comes back as the default.
   */
  lemma SaveThenLoad(m: map<string, string>, s: SiteSettings)
    ensures s.bannerColor != "" ==> ParseSettings(Upsert(m, Serialise(s))) == s
    ensures s.bannerColor == "" ==> ParseSettings(Upsert(m, Serialise(s))) == s.(bannerColor := DefaultColor)
  {
    SavedValue(m, s, 0);
    SavedValue(m, s, 1);
    SavedValue(m, s, 2);
    SavedValue(m, s, 3);
    SavedValue(m, s, 4);
    NumberToStringRoundTrip(s.dailyOrderLimit);
  }

  /** The page and its form handlers. */
  class SettingsPage {
    var settings: SiteSettings

    constructor ()
      ensures settings == InitialSettings
    {
      settings := InitialSettings;
    }

    /** The rows fill a dictionary; a failed query keeps the current settings. */
    method FetchSettings(data: Option<seq<(string, string)>>)
      modifies this
      ensures data.Some? ==> settings == ParseSettings(LastWins(data.value))
      ensures data.None? ==> settings == old(settings)
    {
      if data.Some? {
        var settingsMap := BuildMap(data.value);
        settings := ParseSettings(settingsMap);
      }
    }

    /** The limit input: `parseInt(text) || 0`, so it is never NaN. */
    method SetLimitInput(text: string)
      modifies this
      ensures settings == old(settings).(dailyOrderLimit := Some(ParseIntOrZero(text)))
      ensures settings.dailyOrderLimit.Some?
      ensures ParseInt(text).None? ==> settings.dailyOrderLimit == Some(0)
    {
      settings := settings.(dailyOrderLimit := Some(ParseIntOrZero(text)));
    }

    method SetBannerEnabled(checked: bool)
      modifies this
      ensures settings == old(settings).(bannerEnabled := checked)
    {
      settings := settings.(bannerEnabled := checked);
    }

    method SetBannerText(text: string)
      modifies this
      ensures settings == old(settings).(bannerText := text)
    {
      settings := settings.(bannerText := text);
    }

    method SetBannerColor(color: string)
      modifies this
      ensures settings == old(settings).(bannerColor := color)
    {
      settings := settings.(bannerColor := color);
    }

    method SetMaintenanceMode(checked: bool)
      modifies this
      ensures settings == old(settings).(maintenanceMode := checked)
    {
      settings := settings.(maintenanceMode := checked);
    }

    /** `handleSave`: the pairs written, which read back as the current settings. */
    method HandleSave(table: map<string, string>) returns (saved: map<string, string>)
      ensures forall j :: 0 <= j < 5 ==> Lookup(saved, Serialise(settings)[j].0) == Some(Serialise(settings)[j].1)
      ensures settings.bannerColor != "" ==> ParseSettings(saved) == settings
      ensures settings.bannerColor == "" ==> ParseSettings(saved) == settings.(bannerColor := DefaultColor)
    {
      saved := Upsert(table, Serialise(settings));
      forall j | 0 <= j < 5
        ensures Lookup(saved, Serialise(settings)[j].0) == Some(Serialise(settings)[j].1)
      {
        SavedValue(table, settings, j);
      }
      SaveThenLoad(table, settings);
    }
  }
}
