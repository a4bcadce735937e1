/** The teller's settings dialog (TellerApp.Wpf/SettingsWindow.xaml.cs): how the
    stored settings fill the form, the PUT body Save builds from it, and when
    the dialog closes. */
module TellerSettings {
  import opened Common

  /** The form's three controls; a text box's text is nullable. */
  datatype SettingsForm = SettingsForm(runningText: Option<string>, videoPath: Option<string>, showVideo: bool)

  /** A dictionary lookup that yields null for a missing key. */
  function Lookup(s: map<string, string>, key: string): (r: Option<string>)
    ensures r.Some? <==> key in s
    ensures r.Some? ==> r.value == s[key]
  {
    if key in s then Some(s[key]) else None
  }

  /** The check box is ticked exactly when the stored value is "true" in any letter case. */
  predicate ShowVideoChecked(value: Option<string>) {
    EqualsIgnoreCase(value, "true")
  }

  /** Loading: a missing text becomes "", ShowVideo is read case-insensitively. */
  function LoadForm(s: map<string, string>): (f: SettingsForm)
    ensures f.runningText == Some(if "RunningText" in s then s["RunningText"] else "")
    ensures f.videoPath == Some(if "VideoPath" in s then s["VideoPath"] else "")
    ensures f.showVideo <==> "ShowVideo" in s && ShowVideoChecked(Some(s["ShowVideo"]))
  {
    SettingsForm(
      Some(Lookup(s, "RunningText").GetOr("")),
      Some(Lookup(s, "VideoPath").GetOr("")),
      ShowVideoChecked(Lookup(s, "ShowVideo")))
  }

  /** bool.ToString().ToLowerInvariant() */
  function BoolText(b: bool): (r: string)
    ensures r == (if b then "true" else "false")
  {
    ToLowerInvariant(if b then "True" else "False")
  }

  /** Save's PUT body: exactly the three keys, a null text sent as "". */
  function SavePayload(f: SettingsForm): (m: map<string, string>)
    ensures m.Keys == {"RunningText", "VideoPath", "ShowVideo"}
    ensures m["RunningText"] == f.runningText.GetOr("") && m["VideoPath"] == f.videoPath.GetOr("")
    ensures m["ShowVideo"] == BoolText(f.showVideo)
  {
    map["RunningText" := f.runningText.GetOr(""), "VideoPath" := f.videoPath.GetOr(""),
        "ShowVideo" := BoolText(f.showVideo)]
  }

  /** The form with null texts shown as "" (what a reload displays). */
  function Shown(f: SettingsForm): SettingsForm {
    SettingsForm(Some(f.runningText.GetOr("")), Some(f.videoPath.GetOr("")), f.showVideo)
  }

  /** The check box survives a save and reload: the lower-case text reads back as the same bool. */
  lemma ShowVideoRoundTrip(b: bool)
    ensures ShowVideoChecked(Some(BoolText(b))) == b
  {
    if !b {
      assert BoolText(b)[0] != 't';
    }
  }

  /** Saving and loading the form gives the form back, whatever else the store
      holds, since the server upserts every key of the body. */
  lemma SaveLoadRoundTrip(store: map<string, string>, f: SettingsForm)
    ensures LoadForm(store + SavePayload(f)) == Shown(f)
  {
    ShowVideoRoundTrip(f.showVideo);
  }

  /** How the PUT ended: a success code, an error code, or an exception. */
  datatype PutOutcome = Succeeded | ErrorStatus(code: int) | Failed

  /** DialogResult after Save: true when the PUT succeeded, unset otherwise;
      the window closes only in the first case. */
  function SaveResult(outcome: PutOutcome): (r: (Option<bool>, bool))
    ensures r.1 <==> outcome.Succeeded?
    ensures r.0 == (if outcome.Succeeded? then Some(true) else None)
  {
    match outcome
    case Succeeded => (Some(true), true)
    case ErrorStatus(_) => (None, false)
    case Failed => (None, false)
  }
}
