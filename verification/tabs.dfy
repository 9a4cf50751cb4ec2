/** The panes of the settings window and their display metadata. */
module Tabs {

  /** The nine settings panes, in the order the enumeration declares them. */
  datatype SettingsTab =
    | General
    | Tools
    | Sessions
    | Config
    | Instances
    | VoiceWake
    | Permissions
    | Debug
    | About

  /** The single frame size shared by every pane (points). */
  const WindowWidth: nat := 598
  const WindowHeight: nat := 718

  /** Every tab exactly once, in declaration order (`CaseIterable.allCases`). */
  function AllCases(): (r: seq<SettingsTab>)
    ensures |r| == 9
    ensures forall i, j :: 0 <= i < j < |r| ==> r[i] != r[j]
    ensures r[0] == General && r[1] == Tools && r[2] == Sessions && r[3] == Config && r[4] == Instances
    ensures r[5] == VoiceWake && r[6] == Permissions && r[7] == Debug && r[8] == About
  {
    [General, Tools, Sessions, Config, Instances, VoiceWake, Permissions, Debug, About]
  }

  /** The case list is complete: every tab occurs in it. */
  lemma AllCasesComplete()
    ensures forall t: SettingsTab :: t in AllCases()
  {
    var r := AllCases();
    forall t: SettingsTab
      ensures t in r
    {
      match t
      case General => assert r[0] == t;
      case Tools => assert r[1] == t;
      case Sessions => assert r[2] == t;
      case Config => assert r[3] == t;
      case Instances => assert r[4] == t;
      case VoiceWake => assert r[5] == t;
      case Permissions => assert r[6] == t;
      case Debug => assert r[7] == t;
      case About => assert r[8] == t;
    }
  }

  /** The label shown for a tab: a non-empty, capitalised word or phrase. */
  function Title(t: SettingsTab): (r: string)
    ensures |r| > 0 && 'A' <= r[0] <= 'Z'
  {
    match t
    case General => "General"
    case Tools => "Tools"
    case Sessions => "Sessions"
    case Config => "Config"
    case Instances => "Instances"
    case VoiceWake => "Voice Wake"
    case Permissions => "Permissions"
    case Debug => "Debug"
    case About => "About"
  }

  /** No two tabs share a title, so a title identifies its tab. */
  lemma TitlesDistinct(a: SettingsTab, b: SettingsTab)
    ensures Title(a) == Title(b) <==> a == b
  {
  }
}
