/**
 * The site-wide banner: what it reads from the three banner rows, when it
 * renders, and the dismiss button.
 */
module Banner {
  import opened Common
  import opened KeyValue
  import opened SettingsAdmin
  import opened Seqs

  /** The banner's state: whether it is visible, its text and its colour. */
  datatype BannerState = BannerState(isVisible: bool, text: string, color: string)

  const InitialBanner := BannerState(false, "", DefaultColor)

  /** The values `fetchBannerSettings` takes from the rows, each from the first row with its key. */
  function BannerOf(rows: seq<(string, string)>): (b: BannerState)
    ensures b.isVisible <==> FindFirst(rows, "banner_enabled") == Some("true")
    ensures b.text == FindFirst(rows, "banner_text").GetOr("")
    ensures b.color != ""
    ensures Truthy(FindFirst(rows, "banner_color")) ==> b.color == FindFirst(rows, "banner_color").value
  {
    BannerState(
      FindFirst(rows, "banner_enabled") == Some("true"),
      OrElse(FindFirst(rows, "banner_text"), ""),
      OrElse(FindFirst(rows, "banner_color"), DefaultColor))
  }

  /** The keys `.in("key", [...])` asks for. */
  predicate IsBannerKey(k: string) {
    k == "banner_enabled" || k == "banner_text" || k == "banner_color"
  }

  function BannerKeyTest(): ((string, string)) -> bool {
    (row: (string, string)) => IsBannerKey(row.0)
  }

  /** The rows the banner's query returns from the whole `site_settings` table, in table order. */
  function BannerQuery(rows: seq<(string, string)>): (r: seq<(string, string)>)
    ensures forall row :: row in r <==> row in rows && IsBannerKey(row.0)
  {
    var r := Filter(rows, BannerKeyTest());
    assert forall row :: row in r <==> row in rows && IsBannerKey(row.0) by {
      forall row ensures row in r <==> row in rows && IsBannerKey(row.0) {
        FilterMember(rows, BannerKeyTest(), row);
      }
    }
    r
  }

  /** Dropping rows whose key is not `k` does not change the first row with key `k`. */
  lemma {:induction false} FindFirstFilter(rows: seq<(string, string)>, p: ((string, string)) -> bool, k: string)
    requires forall row: (string, string) :: row.0 == k ==> p(row)
    ensures FindFirst(Filter(rows, p), k) == FindFirst(rows, k)
  {
    if rows != [] {
      FindFirstFilter(rows[1..], p, k);
      if p(rows[0]) {
        var f := Filter(rows, p);
        assert f == [rows[0]] + Filter(rows[1..], p);
        assert f[0] == rows[0] && f[1..] == Filter(rows[1..], p);
      } else {
        assert rows[0].0 != k;
        assert Filter(rows, p) == Filter(rows[1..], p);
      }
    }
  }

  /** The query's key filter changes nothing the banner reads. */
  lemma BannerOfQuery(rows: seq<(string, string)>)
    ensures BannerOf(BannerQuery(rows)) == BannerOf(rows)
  {
    FindFirstFilter(rows, BannerKeyTest(), "banner_enabled");
    FindFirstFilter(rows, BannerKeyTest(), "banner_text");
    FindFirstFilter(rows, BannerKeyTest(), "banner_color");
  }

  /** `if (!isVisible || !text) return null`. */
  predicate Renders(b: BannerState) {
    b.isVisible && b.text != ""
  }

  /** The close button: hidden, with text and colour kept. */
  function Dismiss(b: BannerState): (r: BannerState)
    ensures !Renders(r)
    ensures r.text == b.text && r.color == b.color
  {
    b.(isVisible := false)
  }

  /**
   * The `key` column is unique, so the banner, reading its three rows of
   * the table, and the settings page, reading the whole table, see the same
   * values.
   */
  lemma BannerAgreesWithSettings(rows: seq<(string, string)>)
    requires UniqueKeys(rows)
    ensures BannerOf(BannerQuery(rows)).isVisible == ParseSettings(LastWins(rows)).bannerEnabled
    ensures BannerOf(BannerQuery(rows)).text == ParseSettings(LastWins(rows)).bannerText
    ensures BannerOf(BannerQuery(rows)).color == ParseSettings(LastWins(rows)).bannerColor
  {
    BannerOfQuery(rows);
    FindFirstAgreesWithLastWins(rows, "banner_enabled");
    FindFirstAgreesWithLastWins(rows, "banner_text");
    FindFirstAgreesWithLastWins(rows, "banner_color");
  }

  /**
   * After the settings page saves `s`, so that the table's rows read as the
   * upsert of the saved pairs, the banner renders exactly when it was
   * enabled with some text.
   */
  lemma BannerAfterSave(rows: seq<(string, string)>, table: map<string, string>, s: SiteSettings)
    requires UniqueKeys(rows)
    requires LastWins(rows) == Upsert(table, Serialise(s))
    ensures Renders(BannerOf(BannerQuery(rows))) <==> s.bannerEnabled && s.bannerText != ""
  {
    BannerAgreesWithSettings(rows);
    SaveThenLoad(table, s);
  }

  /** The table of five rows the page writes for `s` on an empty table meets those requirements. */
  lemma SavedRowsMeetRequirements(s: SiteSettings)
    ensures UniqueKeys(Serialise(s))
    ensures LastWins(Serialise(s)) == Upsert(map[], Serialise(s))
  {
    var pairs := Serialise(s);
    var a := LastWins(pairs);
    var b := Upsert(map[], pairs);
    forall k ensures (k in a <==> k in b) && (k in a ==> a[k] == b[k]) {
      UpsertLookup(map[], pairs, k);
      assert Lookup(a, k) == Lookup(b, k);
    }
    assert a.Keys == b.Keys;
  }
}
