/** The player page (`showPlayer`, main.js 279-319) and its download-link
    modal (`showDownloadLinks`, main.js 370-399). The episode record fetched
    for the player is cached in `currentEpisodeData` (main.js 3, 285) and read
    again when the modal opens; here that cache is a field of `Session`. */
module Player {
  import opened Wrappers

  const StreamBaseUrl: string := "https://kitanimev2.vercel.app"

  // ---------------------------------------------------------------------
  // Quality keys and Math.max

  /** A JavaScript number, as far as quality selection can produce one:
      `parseInt` yields an integer or NaN, `Math.max()` of nothing yields
      -Infinity. */
  datatype JsNumber = Int(value: int) | NaN | NegInfinity

  predicate IsDigit(ch: char) {
    '0' <= ch <= '9'
  }

  function DigitValue(ch: char): nat
    requires IsDigit(ch)
  {
    (ch as int) - ('0' as int)
  }

  predicate AllDigits(s: string) {
    forall i :: 0 <= i < |s| ==> IsDigit(s[i])
  }

  /** The longest prefix of `s` made of ASCII digits. */
  function DigitsPrefix(s: string): (d: string)
    ensures |d| <= |s| && d == s[..|d|]
    ensures AllDigits(d)
    ensures |d| < |s| ==> !IsDigit(s[|d|])
  {
    if |s| == 0 || !IsDigit(s[0]) then []
    else
      var rest := DigitsPrefix(s[1..]);
      assert forall i :: 0 < i < |[s[0]] + rest| ==> ([s[0]] + rest)[i] == rest[i - 1];
      [s[0]] + rest
  }

  /** The value of a run of decimal digits. */
  function DecimalValue(d: string): nat
    requires AllDigits(d)
    decreases |d|
  {
    if |d| == 0 then 0
    else DecimalValue(d[..|d| - 1]) * 10 + DigitValue(d[|d| - 1])
  }

  /** `parseInt(s, 10)` on a string that starts with its digits: the value of
      the leading digits, NaN when there are none. */
  function ParseInt(s: string): JsNumber {
    var d := DigitsPrefix(s);
    if d == [] then NaN else Int(DecimalValue(d))
  }

  /** `s.indexOf(ch)`, with |s| standing for "not found". */
  function IndexOf(s: string, ch: char): (k: nat)
    ensures k <= |s| && ch !in s[..k]
    ensures k < |s| ==> s[k] == ch
  {
    if |s| == 0 || s[0] == ch then 0
    else
      var k := IndexOf(s[1..], ch);
      assert s[..k + 1] == [s[0]] + s[1..][..k];
      k + 1
  }

  /** `s.replace(ch, '')` with a one-character string pattern: only the
      first occurrence is removed. */
  function RemoveFirst(s: string, ch: char): (r: string)
    ensures ch !in s ==> r == s
    ensures ch in s ==> exists i :: 0 <= i < |s| && s[i] == ch && ch !in s[..i] && r == s[..i] + s[i + 1..]
  {
    var k := IndexOf(s, ch);
    if k == |s| then
      assert s[..k] == s;
      s
    else s[..k] + s[k + 1..]
  }

  /** The quality a stream-map key such as "720p" stands for (main.js 288, 294). */
  function QualityOf(key: string): JsNumber {
    ParseInt(RemoveFirst(key, 'p'))
  }

  /** The decimal rendering of a natural number, without leading zeros. */
  function Decimal(n: nat): (s: string)
    ensures |s| > 0 && AllDigits(s)
  {
    if n < 10 then ['0' + n as char]
    else Decimal(n / 10) + ['0' + (n % 10) as char]
  }

  lemma {:induction false} DecimalValueOfDecimal(n: nat)
    ensures DecimalValue(Decimal(n)) == n
  {
    if n >= 10 {
      var s := Decimal(n);
      assert s[..|s| - 1] == Decimal(n / 10);
      DecimalValueOfDecimal(n / 10);
    }
  }

  /** Keys of the form "<digits>p" parse back to their number: the options
      offered to the player are the resolutions the keys name. */
  lemma QualityKeyRoundTrip(n: nat)
    ensures QualityOf(Decimal(n) + "p") == Int(n)
  {
    var d := Decimal(n);
    RemoveFirstAfterDigits(d);
    assert DigitsPrefix(d) == d;
    DecimalValueOfDecimal(n);
  }

  lemma RemoveFirstAfterDigits(d: string)
    requires AllDigits(d)
    ensures RemoveFirst(d + "p", 'p') == d
  {
    assert 'p' !in d;
    assert (d + "p")[|d|] == 'p';
    assert (d + "p")[..|d|] == d;
  }

  /** `Math.max(a, b)` */
  function Max2(a: JsNumber, b: JsNumber): JsNumber {
    if a.NaN? || b.NaN? then NaN
    else if a.NegInfinity? then b
    else if b.NegInfinity? then a
    else if a.value >= b.value then a else b
  }

  /** `Math.max(...xs)`: -Infinity for no arguments, NaN if any argument is
      NaN, otherwise the largest argument. */
  function JsMax(xs: seq<JsNumber>): (r: JsNumber)
    ensures |xs| == 0 ==> r == NegInfinity
    ensures NaN in xs ==> r == NaN
    ensures (forall i :: 0 <= i < |xs| ==> xs[i].Int?) && |xs| > 0 ==>
      r.Int? && r in xs && forall i :: 0 <= i < |xs| ==> xs[i].value <= r.value
  {
    if |xs| == 0 then NegInfinity
    else
      var m := JsMax(xs[1..]);
      assert forall i :: 1 <= i < |xs| ==> xs[i] == xs[1..][i - 1];
      assert NaN in xs ==> xs[0] == NaN || NaN in xs[1..];
      Max2(xs[0], m)
  }

  // ---------------------------------------------------------------------
  // The player

  /** One `[quality, url]` entry of `data.steramList` (the API's spelling),
      in the object's key order. */
  datatype StreamEntry = StreamEntry(quality: string, url: string)

  /** A source handed to the player. */
  datatype Source = Source(src: string, mimeType: string, size: JsNumber)

  /** The quality options: each key parsed (main.js 288). */
  function Qualities(streams: seq<StreamEntry>): seq<JsNumber> {
    seq(|streams|, i requires 0 <= i < |streams| => QualityOf(streams[i].quality))
  }

  /** One source per entry (main.js 291-295). */
  function Sources(streams: seq<StreamEntry>): seq<Source> {
    seq(|streams|, i requires 0 <= i < |streams| =>
      Source(StreamBaseUrl + streams[i].url, "video/mp4", QualityOf(streams[i].quality)))
  }

  /** A format's list of resolutions, as in `download_urls.mp4`. */
  datatype Provider = Provider(provider: string, url: string)
  datatype Resolution = Resolution(resolution: string, urls: seq<Provider>)
  /** `download_urls`: only the `mp4` and `mkv` lists are ever read. */
  datatype DownloadUrls = DownloadUrls(mp4: Option<seq<Resolution>>, mkv: Option<seq<Resolution>>)

  /** The `data` of `episode/{slug}`; a missing field is `None`. */
  datatype Episode = Episode(streamList: Option<seq<StreamEntry>>, downloadUrls: Option<DownloadUrls>)

  /** What the player page shows: the failure placeholder, or the header
      with the episode title, and a player configured with the quality
      options, the default quality and the sources. */
  datatype PlayerView =
    | StreamFailed
    | PlayerReady(title: Option<string>, defaultQuality: JsNumber, options: seq<JsNumber>, sources: seq<Source>)

  function PlayerViewOf(title: Option<string>, data: Option<Episode>): PlayerView {
    if data.Some? && data.value.streamList.Some? then
      var streams := data.value.streamList.value;
      PlayerReady(title, JsMax(Qualities(streams)), Qualities(streams), Sources(streams))
    else StreamFailed
  }

  /** For a non-empty stream map whose keys all parse, the default quality
      is one of the options and no option exceeds it (main.js 288-289). */
  lemma DefaultQualityIsHighest(streams: seq<StreamEntry>)
    requires |streams| > 0
    requires forall i :: 0 <= i < |streams| ==> QualityOf(streams[i].quality).Int?
    ensures var v := PlayerViewOf(None, Some(Episode(Some(streams), None)));
      && v.defaultQuality.Int?
      && v.defaultQuality in v.options
      && forall i :: 0 <= i < |v.options| ==> v.options[i].value <= v.defaultQuality.value
  {
    assert forall i :: 0 <= i < |streams| ==> Qualities(streams)[i].Int?;
  }

  /** A key with no digits after removing its first 'p' makes `Math.max`
      NaN, and an empty stream map makes it -Infinity. */
  lemma DefaultQualityDegenerate(streams: seq<StreamEntry>)
    ensures |streams| == 0 ==> JsMax(Qualities(streams)) == NegInfinity
    ensures (exists i :: 0 <= i < |streams| && QualityOf(streams[i].quality) == NaN) ==>
      JsMax(Qualities(streams)) == NaN
  {
    if exists i :: 0 <= i < |streams| && QualityOf(streams[i].quality) == NaN {
      var i :| 0 <= i < |streams| && QualityOf(streams[i].quality) == NaN;
      assert Qualities(streams)[i] == NaN;
    }
  }

  /** One source per entry, in entry order: its address is the stream host
      followed by the entry's path, and its size is the entry's parsed
      quality, the same number offered as that entry's option. */
  lemma SourcesFollowEntries(streams: seq<StreamEntry>)
    ensures |Sources(streams)| == |streams| == |Qualities(streams)|
    ensures forall i :: 0 <= i < |streams| ==>
      && Sources(streams)[i].src == StreamBaseUrl + streams[i].url
      && Sources(streams)[i].mimeType == "video/mp4"
      && Sources(streams)[i].size == Qualities(streams)[i]
  {
  }

  /** Two keys "<a>p" and "<b>p" default to the larger of a and b. */
  lemma DefaultOfTwoKeys(a: nat, b: nat, url1: string, url2: string)
    ensures JsMax(Qualities([StreamEntry(Decimal(a) + "p", url1), StreamEntry(Decimal(b) + "p", url2)]))
      == Int(if a >= b then a else b)
  {
    QualityKeyRoundTrip(a);
    QualityKeyRoundTrip(b);
    var qs := Qualities([StreamEntry(Decimal(a) + "p", url1), StreamEntry(Decimal(b) + "p", url2)]);
    assert qs == [Int(a), Int(b)];
    assert qs[1..] == [Int(b)];
  }

  /** The concrete case: qualities 360p and 720p default to 720. */
  lemma DefaultOf360And720(url1: string, url2: string)
    ensures JsMax(Qualities([StreamEntry("360p", url1), StreamEntry("720p", url2)])) == Int(720)
  {
    assert Decimal(360) + "p" == "360p" by {
      assert Decimal(3) == "3";
      assert Decimal(36) == "36";
    }
    assert Decimal(720) + "p" == "720p" by {
      assert Decimal(7) == "7";
      assert Decimal(72) == "72";
    }
    DefaultOfTwoKeys(360, 720, url1, url2);
  }

  // ---------------------------------------------------------------------
  // The download modal

  /** `<a href=url>provider</a>` */
  datatype Link = Link(href: string, text: string)
  /** `<div class="resolution-group"><strong>resolution:</strong> links</div>` */
  datatype Group = Group(resolution: string, links: seq<Link>)
  /** `<div class="download-section"><h4>heading</h4> groups</div>` */
  datatype Section = Section(heading: string, groups: seq<Group>)
  /** The modal body: the sections, or a plain message. */
  datatype ModalBody = Sections(sections: seq<Section>) | Message(text: string)

  const NotAvailable: string := "Download links not available."
  const NoLinks: string := "No download links available."

  function LinkOf(p: Provider): Link {
    Link(p.url, p.provider)
  }

  function GroupOf(r: Resolution): Group {
    Group(r.resolution, seq(|r.urls|, i requires 0 <= i < |r.urls| => LinkOf(r.urls[i])))
  }

  /** The JavaScript test `list && list.length > 0`. */
  predicate HasLinks(list: Option<seq<Resolution>>) {
    list.Some? && |list.value| > 0
  }

  /** What `processFormat(format, heading)` appends (main.js 380-392). */
  function FormatSections(list: Option<seq<Resolution>>, heading: string): seq<Section> {
    if HasLinks(list) then
      [Section(heading, seq(|list.value|, i requires 0 <= i < |list.value| => GroupOf(list.value[i])))]
    else []
  }

  function DownloadBody(ep: Option<Episode>): ModalBody {
    if ep.None? || ep.value.downloadUrls.None? then Message(NotAvailable)
    else
      var u := ep.value.downloadUrls.value;
      var secs := FormatSections(u.mp4, "MP4") + FormatSections(u.mkv, "MKV");
      if secs == [] then Message(NoLinks) else Sections(secs)
  }

  /** `processFormat` with its nested loops: one section for a non-empty
      list, one group per resolution, one link per provider. */
  method ProcessFormat(list: Option<seq<Resolution>>, heading: string) returns (secs: seq<Section>)
    ensures secs == FormatSections(list, heading)
  {
    secs := [];
    if list.Some? && |list.value| > 0 {
      var resolutions := list.value;
      var groups: seq<Group> := [];
      var k := 0;
      while k < |resolutions|
        invariant 0 <= k <= |resolutions|
        invariant |groups| == k
        invariant forall m :: 0 <= m < k ==> groups[m] == GroupOf(resolutions[m])
      {
        var res := resolutions[k];
        var links: seq<Link> := [];
        var n := 0;
        while n < |res.urls|
          invariant 0 <= n <= |res.urls|
          invariant |links| == n
          invariant forall m :: 0 <= m < n ==> links[m] == LinkOf(res.urls[m])
        {
          links := links + [Link(res.urls[n].url, res.urls[n].provider)];
          n := n + 1;
        }
        assert Group(res.resolution, links) == GroupOf(res);
        groups := groups + [Group(res.resolution, links)];
        k := k + 1;
      }
      assert groups == seq(|resolutions|, i requires 0 <= i < |resolutions| => GroupOf(resolutions[i]));
      secs := [Section(heading, groups)];
    }
  }

  /** Without a cached episode or its `download_urls` the modal says so
      (main.js 396-397); with them but no non-empty format list it says
      that there are no links (main.js 395). */
  lemma DownloadMessages(ep: Option<Episode>)
    ensures DownloadBody(ep) == Message(NotAvailable) <==> ep.None? || ep.value.downloadUrls.None?
    ensures DownloadBody(ep) == Message(NoLinks) <==>
      ep.Some? && ep.value.downloadUrls.Some?
      && !HasLinks(ep.value.downloadUrls.value.mp4) && !HasLinks(ep.value.downloadUrls.value.mkv)
    ensures DownloadBody(ep).Message? || |DownloadBody(ep).sections| > 0
  {
  }

  /** The sections: MP4 first if it has links, then MKV if it has links;
      every group and link keeps the order of the record. */
  lemma DownloadSections(ep: Option<Episode>)
    requires ep.Some? && ep.value.downloadUrls.Some?
    ensures var u := ep.value.downloadUrls.value;
      var b := DownloadBody(ep);
      b.Sections? ==>
        && |b.sections| == (if HasLinks(u.mp4) then 1 else 0) + (if HasLinks(u.mkv) then 1 else 0)
        && (HasLinks(u.mp4) ==> b.sections[0].heading == "MP4")
        && (HasLinks(u.mkv) ==> b.sections[|b.sections| - 1].heading == "MKV")
        && forall s :: 0 <= s < |b.sections| ==>
             var list := if b.sections[s].heading == "MP4" then u.mp4.value else u.mkv.value;
             && (b.sections[s].heading == "MP4" || b.sections[s].heading == "MKV")
             && |b.sections[s].groups| == |list|
             && forall k :: 0 <= k < |list| ==>
                  && b.sections[s].groups[k].resolution == list[k].resolution
                  && |b.sections[s].groups[k].links| == |list[k].urls|
                  && forall m :: 0 <= m < |list[k].urls| ==>
                       b.sections[s].groups[k].links[m] == Link(list[k].urls[m].url, list[k].urls[m].provider)
  {
    var u := ep.value.downloadUrls.value;
    var b := DownloadBody(ep);
    if b.Sections? {
      assert "MP4" != "MKV" by { assert "MP4"[1] != "MKV"[1]; }
    }
  }

  /** The state the player page keeps between the player and the modal. */
  class Session {
    /** `currentEpisodeData` */
    var currentEpisode: Option<Episode>

    constructor ()
      ensures currentEpisode == None
    {
      currentEpisode := None;
    }

    /** `showPlayer` once `episode/{slug}` has answered with `data` (None
        when the fetch failed): the record is cached whatever it is, and the
        view is built from it. */
    method ShowPlayer(title: Option<string>, data: Option<Episode>) returns (view: PlayerView)
      modifies this
      ensures currentEpisode == data
      ensures view == PlayerViewOf(title, data)
    {
      currentEpisode := data;
      if data.Some? && data.value.streamList.Some? {
        var streams := data.value.streamList.value;
        var qualities := Qualities(streams);
        view := PlayerReady(title, JsMax(qualities), qualities, Sources(streams));
      } else {
        view := StreamFailed;
      }
    }

    /** `showDownloadLinks`: the modal body built from the cached record. */
    method ShowDownloadLinks() returns (body: ModalBody)
      ensures body == DownloadBody(currentEpisode)
    {
      if currentEpisode.Some? && currentEpisode.value.downloadUrls.Some? {
        var urls := currentEpisode.value.downloadUrls.value;
        var mp4 := ProcessFormat(urls.mp4, "MP4");
        var mkv := ProcessFormat(urls.mkv, "MKV");
        var sections := mp4 + mkv;
        body := if sections == [] then Message(NoLinks) else Sections(sections);
      } else {
        body := Message(NotAvailable);
      }
    }
  }

  /** The modal opened after `showPlayer` reads the record that call
      fetched. */
  method PlayThenDownload(title: Option<string>, data: Option<Episode>) returns (view: PlayerView, body: ModalBody)
    ensures view == PlayerViewOf(title, data)
    ensures body == DownloadBody(data)
  {
    var session := new Session();
    view := session.ShowPlayer(title, data);
    body := session.ShowDownloadLinks();
  }
}
