/** The value side of `src/settings.rs`: the resolution enumeration, its
    parsing from the combobox text, the combobox index table and the
    defaults. */
module Settings {
  import opened Wrappers

  /** The capture resolution. The declaration order is the order the derived
      `PartialOrd` compares. */
  datatype VideoResolution = V480P | V720P | V1080P

  /** The derived ordering: earlier in the declaration is smaller. */
  predicate Below(a: VideoResolution, b: VideoResolution) {
    (a == V480P && b != V480P) || (a == V720P && b == V1080P)
  }

  /** `VideoResolution::default()`. */
  const DEFAULT_RESOLUTION: VideoResolution := V720P

  /** The entries of the resolution combobox, in the order they are appended. */
  const COMBO_TEXTS: seq<string> := ["480P", "720P", "1080P"]

  /** The combobox entry that the settings dialog selects for a resolution. */
  function ComboIndex(r: VideoResolution): (i: nat)
    ensures i < |COMBO_TEXTS|
  {
    match r
    case V480P => 0
    case V720P => 1
    case V1080P => 2
  }

  /** Lower-casing of one character. Only ASCII letters are mapped: no other
      character lower-cases to a digit or to 'p', so this is exact for the
      comparisons `FromText` makes. */
  function LowerChar(c: char): char {
    if 'A' <= c <= 'Z' then (c as int + 32) as char else c
  }

  function Lower(s: string): string {
    seq(|s|, i requires 0 <= i < |s| => LowerChar(s[i]))
  }

  /** `VideoResolution::from(Option<GString>)`: an absent text gives the
      default; a present one is lower-cased and compared with the three
      names; anything else panics, which is the `Failure` here. */
  function FromText(s: Option<string>): (r: Result<VideoResolution, string>)
    ensures s.None? ==> r == Success(V720P)
    ensures r.Failure? ==> s.Some? && r.error == "unsupported video resolution " + s.value
  {
    match s
    case None => Success(DEFAULT_RESOLUTION)
    case Some(t) =>
      var l := Lower(t);
      if l == "480p" then Success(V480P)
      else if l == "720p" then Success(V720P)
      else if l == "1080p" then Success(V1080P)
      else Failure("unsupported video resolution " + t)
  }

  /** The combobox text with its trailing 'P' lower-cased. */
  function LowerSpelling(r: VideoResolution): string {
    var t := COMBO_TEXTS[ComboIndex(r)];
    t[..|t| - 1] + "p"
  }

  /** The persisted settings. */
  datatype Settings = Settings(
    rtmpLocation: Option<string>,
    h264Encoder: string,
    videoResolution: VideoResolution)

  const DEFAULT_H264_ENCODER: string :=
    "video/x-raw,format=NV12 ! vaapih264enc bitrate=20000 keyframe-period=60 ! video/x-h264,profile=main"

  /** `Settings::default()`. */
  const DEFAULT_SETTINGS: Settings := Settings(None, DEFAULT_H264_ENCODER, DEFAULT_RESOLUTION)

  /** Lower-casing changes only upper-case ASCII letters, into lower-case ones. */
  lemma LowerCharChanges(c: char)
    ensures LowerChar(c) != c ==> 'A' <= c <= 'Z' && 'a' <= LowerChar(c) <= 'z'
    ensures LowerChar(c) == 'p' ==> c == 'p' || c == 'P'
  {
  }

  /** The texts that parse to a resolution are exactly its combobox text and
      that text with the final letter in lower case. */
  lemma {:induction false} FromTextAccepts(t: string, r: VideoResolution)
    ensures FromText(Some(t)) == Success(r)
        <==> (t == COMBO_TEXTS[ComboIndex(r)] || t == LowerSpelling(r))
  {
    var upper, lower := COMBO_TEXTS[ComboIndex(r)], LowerSpelling(r);
    if FromText(Some(t)) == Success(r) {
      var l := Lower(t);
      assert l == lower;
      var last := |t| - 1;
      assert |upper| == |lower| == |t| && upper[last] == 'P' && lower[last] == 'p';
      assert forall j :: 0 <= j < last ==> '0' <= upper[j] <= '9' && lower[j] == upper[j] by {
        match r
        case V480P =>
        case V720P =>
        case V1080P =>
      }
      forall i | 0 <= i < |t|
        ensures i < last ==> t[i] == upper[i]
        ensures i == last ==> t[i] == 'p' || t[i] == 'P'
      {
        assert l[i] == LowerChar(t[i]) == lower[i];
        LowerCharChanges(t[i]);
      }
      if t[last] == 'p' {
        assert t == lower;
      } else {
        assert t == upper;
      }
    }
    if t == upper || t == lower {
      match r
      case V480P => assert Lower(t) == "480p";
      case V720P => assert Lower(t) == "720p";
      case V1080P => assert Lower(t) == "1080p";
    }
  }

  /** Parsing the combobox entry chosen for a resolution gives it back, and the
      entry chosen for the parsed value of an entry is that entry. */
  lemma ComboRoundTrip(r: VideoResolution, i: nat)
    ensures FromText(Some(COMBO_TEXTS[ComboIndex(r)])) == Success(r)
    ensures i < |COMBO_TEXTS| ==>
      FromText(Some(COMBO_TEXTS[i])).Success? && ComboIndex(FromText(Some(COMBO_TEXTS[i])).value) == i
  {
    FromTextAccepts(COMBO_TEXTS[ComboIndex(r)], r);
    if i < |COMBO_TEXTS| {
      var r' := if i == 0 then V480P else if i == 1 then V720P else V1080P;
      FromTextAccepts(COMBO_TEXTS[i], r');
    }
  }

  /** The derived order is the order of the combobox entries, and the default
      is the middle entry. */
  lemma OrderMatchesCombo(a: VideoResolution, b: VideoResolution)
    ensures Below(a, b) <==> ComboIndex(a) < ComboIndex(b)
    ensures Below(V480P, V720P) && Below(V720P, V1080P)
    ensures FromText(None) == Success(DEFAULT_RESOLUTION) && ComboIndex(DEFAULT_RESOLUTION) == 1
  {
  }

  /** The default settings have no location and the default resolution,
      which is also what an absent resolution text parses to. */
  lemma DefaultsAgree()
    ensures DEFAULT_SETTINGS.rtmpLocation.None?
    ensures FromText(None) == Success(DEFAULT_SETTINGS.videoResolution)
    ensures COMBO_TEXTS[ComboIndex(DEFAULT_SETTINGS.videoResolution)] == "720P"
  {
  }
}
