/** The settings window: sink lookup, the speaker icon bucket, the options
    panel's reset and mirror buttons over the shared speaker table, where the
    table comes from at start-up, and the window-centering arithmetic. */
module Gui {
  import opened Common
  import opened SpeakerConfig

  // ---------------------------------------------------------------------
  // Sink lookup

  /** An output device as the audio server lists it. */
  datatype Sink = Sink(name: string, description: string)

  /** `find_sink_by_name`: the first listed sink with that name. */
  function FindSinkByName(sinks: seq<Sink>, name: string): (r: Option<Sink>)
    ensures r.None? <==> forall i :: 0 <= i < |sinks| ==> sinks[i].name != name
    ensures r.Some? ==> exists i :: 0 <= i < |sinks| && sinks[i] == r.value && sinks[i].name == name &&
                                    forall j :: 0 <= j < i ==> sinks[j].name != name
  {
    match FirstIndex(sinks, (s: Sink) => s.name == name)
    case None => None
    case Some(i) => Some(sinks[i])
  }

  /** `find_sink_by_description`: the first listed sink with that description. */
  function FindSinkByDescription(sinks: seq<Sink>, description: string): (r: Option<Sink>)
    ensures r.None? <==> forall i :: 0 <= i < |sinks| ==> sinks[i].description != description
    ensures r.Some? ==> exists i :: 0 <= i < |sinks| && sinks[i] == r.value && sinks[i].description == description &&
                                    forall j :: 0 <= j < i ==> sinks[j].description != description
  {
    match FirstIndex(sinks, (s: Sink) => s.description == description)
    case None => None
    case Some(i) => Some(sinks[i])
  }

  /** Listing more sinks after a match does not change what is found. */
  lemma {:induction false} FindSinkByNameAppend(sinks: seq<Sink>, more: seq<Sink>, name: string)
    requires FindSinkByName(sinks, name).Some?
    ensures FindSinkByName(sinks + more, name) == FindSinkByName(sinks, name)
  {
    var r := FindSinkByName(sinks, name);
    var i :| 0 <= i < |sinks| && sinks[i] == r.value && sinks[i].name == name &&
             forall j :: 0 <= j < i ==> sinks[j].name != name;
    assert (sinks + more)[i].name == name;
    var r' := FindSinkByName(sinks + more, name);
    var i' :| 0 <= i' < |sinks + more| && (sinks + more)[i'] == r'.value && (sinks + more)[i'].name == name &&
              forall j :: 0 <= j < i' ==> (sinks + more)[j].name != name;
    assert (sinks + more)[i] == sinks[i];
    assert forall j :: 0 <= j < i ==> (sinks + more)[j] == sinks[j];
    assert i' == i;
  }

  // ---------------------------------------------------------------------
  // Speaker icon

  /** `SpeakerCompasFrame.__get_speaker_icon_id`: which of the four speaker
      images shows `volume`. */
  function SpeakerIconId(volume: int): (id: nat)
    ensures id <= 3
    ensures id == 0 <==> volume == 0
  {
    if volume == 0 then 0
    else if volume < 35 then 1
    else if volume < 75 then 2
    else 3
  }

  /** Over the slider range a louder speaker never shows a quieter icon. */
  lemma SpeakerIconMonotone(v1: int, v2: int)
    requires 0 <= v1 <= v2
    ensures SpeakerIconId(v1) <= SpeakerIconId(v2)
  {
  }

  /** The icon buckets by volume: silent, below 35, below 75, the rest. */
  lemma SpeakerIconBuckets(volume: int)
    requires volume > 0
    ensures SpeakerIconId(volume) == 1 <==> volume < 35
    ensures SpeakerIconId(volume) == 2 <==> 35 <= volume < 75
    ensures SpeakerIconId(volume) == 3 <==> 75 <= volume
  {
  }

  // ---------------------------------------------------------------------
  // Surround systems

  /** The surround systems the settings window offers. */
  datatype SurroundSystem = Stereo | Lcr | LcrRear

  /** `App.__surround_system_dict_sounddevice_order`: the speakers of each
      system, in the order the click sound addresses them. The player is
      given only the length of the list. */
  function Layout(system: SurroundSystem): (names: seq<string>)
    ensures forall k :: 0 <= k < |names| ==> names[k] in DefaultSpeakers
  {
    match system
    case Stereo => [FrontLeft, FrontRight]
    case Lcr => [FrontRight, FrontLeft, FrontCenter]
    case LcrRear => [FrontLeft, FrontRight, RearLeft, RearRight, FrontCenter]
  }

  // ---------------------------------------------------------------------
  // The options panel

  /** The leading side of the mirror pass: "left" when the selected speaker
      names the left side, "right" otherwise. */
  function LeadingSide(selected: Option<string>): (lead: string)
    ensures lead == "left" || lead == "right"
    ensures lead == "left" <==> selected.Some? && Contains(selected.value, "left")
  {
    if selected.Some? && Contains(selected.value, "left") then "left" else "right"
  }

  /** `OptionsFrame`, reduced to the state its reset and mirror buttons use.
      `speakers` is the live table, `defaults` the table held under the
      default settings; the two may be one object. */
  class OptionsFrame {
    const speakers: SpeakerTable
    const defaults: SpeakerTable
    /** The table's keys in dictionary order, taken once at construction. */
    const allNames: seq<string>
    var selected: Option<string>
    var mirroringOn: bool

    constructor (speakers: SpeakerTable, defaults: SpeakerTable, names: seq<string>)
      requires forall k :: k in speakers.params <==> k in names
      ensures this.speakers == speakers && this.defaults == defaults && allNames == names
      ensures selected == None && mirroringOn
    {
      this.speakers := speakers;
      this.defaults := defaults;
      allNames := names;
      selected := None;
      mirroringOn := true;
    }

    /** `set_selected_speaker_name` */
    method SelectSpeaker(name: Option<string>)
      modifies this
      ensures selected == name && mirroringOn == old(mirroringOn)
    {
      selected := name;
    }

    /** The mirror checkbox: a click flips `mirroringOn`, and then
        `__handle_mirror_click` runs. */
    method ToggleMirroring()
      modifies this
      ensures mirroringOn == !old(mirroringOn) && selected == old(selected)
    {
      mirroringOn := !mirroringOn;
    }

    /** `__handle_reset_btn`: clear the selection and make the live table a
        copy of what the default table holds at that moment. */
    method Reset()
      modifies this, speakers
      ensures selected == None && mirroringOn == old(mirroringOn)
      ensures speakers.params == old(defaults.params)
      ensures speakers != defaults ==> defaults.params == old(defaults.params)
    {
      selected := None;
      var copy := defaults.params;
      speakers.params := copy;
    }

    /** `__handle_mirror_click`: with mirroring on, every speaker on the
        leading side re-applies its own volume and angle with mirroring,
        in dictionary order. */
    method MirrorClick()
      requires mirroringOn ==> Pushable(speakers.params, allNames, LeadingSide(selected))
      modifies speakers
      ensures mirroringOn ==> speakers.params == MirrorPass(old(speakers.params), allNames, LeadingSide(selected))
      ensures !mirroringOn ==> speakers.params == old(speakers.params)
    {
      if mirroringOn {
        var lead := LeadingSide(selected);
        ghost var m := speakers.params;
        var i := 0;
        while i < |allNames|
          invariant 0 <= i <= |allNames|
          invariant Pushable(m, allNames[..i], lead)
          invariant speakers.params == MirrorPass(m, allNames[..i], lead)
        {
          var name := allNames[i];
          ghost var done := allNames[..i + 1];
          assert done[..i] == allNames[..i];
          assert Pushable(m, done, lead) by {
            forall j | 0 <= j < |done|
              ensures Contains(done[j], lead) ==> done[j] in m && MirrorName(done[j]) in m
            {
              assert done[j] == allNames[j];
            }
          }
          if Contains(name, lead) {
            speakers.SetSpeakerVolume(speakers.params[name].volume as real, name, true);
            speakers.SetSpeakerAngle(speakers.params[name].angle as real, name, true);
          }
          i := i + 1;
        }
        assert allNames[..i] == allNames;
      }
    }
  }

  /** On the default speakers, the mirror pass leaves each leading speaker
      as it was, gives its mirror the leading volume and angle magnitude
      with the mirror's own sign, and touches no other speaker. */
  lemma MirrorClickOnDefaults(m: Table, selected: Option<string>)
    requires m.Keys == DefaultSpeakers.Keys
    ensures var lead := LeadingSide(selected);
      Pushable(m, DefaultNames, lead) &&
      PassResult(m, MirrorPass(m, DefaultNames, lead), DefaultNames, lead)
  {
    var lead := LeadingSide(selected);
    DefaultMirrorsSeparate(m, lead);
    MirrorPassEffect(m, DefaultNames, lead);
  }

  // ---------------------------------------------------------------------
  // Where the live table comes from

  /** `App.__init__` up to line 703, as written: the default settings are
      built, and without a readable settings file the live table is the
      default settings' own dictionary. `saved` is the table read from the
      settings file, if any. */
  method RestoreSpeakersAsWritten(saved: Option<Table>) returns (defaults: SpeakerTable, speakers: SpeakerTable)
    ensures fresh(defaults) && defaults.params == DefaultSpeakers
    ensures saved.None? ==> speakers == defaults
    ensures saved.Some? ==> fresh(speakers) && speakers != defaults && speakers.params == saved.value
  {
    defaults := new SpeakerTable(DefaultSpeakers);
    if saved.Some? {
      speakers := new SpeakerTable(saved.value);
    } else {
      speakers := defaults;
    }
  }

  /** The same start-up with the default table copied, so that the live
      table is never the defaults' own dictionary. */
  method RestoreSpeakers(saved: Option<Table>) returns (defaults: SpeakerTable, speakers: SpeakerTable)
    ensures fresh(defaults) && defaults.params == DefaultSpeakers
    ensures fresh(speakers) && speakers != defaults
    ensures speakers.params == if saved.Some? then saved.value else DefaultSpeakers
  {
    defaults := new SpeakerTable(DefaultSpeakers);
    if saved.Some? {
      speakers := new SpeakerTable(saved.value);
    } else {
      speakers := new SpeakerTable(DefaultSpeakers);
    }
  }

  /** First run as written: turn the front-left volume down to 40, press
      reset, and the volume is still 40. */
  method FirstRunResetKeepsEdit() returns (volume: int)
    ensures volume == 40
  {
    var defaults, speakers := RestoreSpeakersAsWritten(None);
    var frame := new OptionsFrame(speakers, defaults, DefaultNames);
    speakers.SetSpeakerVolume(40.0, FrontLeft, false);
    frame.Reset();
    volume := speakers.params[FrontLeft].volume;
  }

  /** First run with the copy: the same edit and reset bring back 100. */
  method FirstRunResetRestores() returns (volume: int)
    ensures volume == 100
  {
    var defaults, speakers := RestoreSpeakers(None);
    DefaultFrontLeft();
    var frame := new OptionsFrame(speakers, defaults, DefaultNames);
    speakers.SetSpeakerVolume(40.0, FrontLeft, false);
    frame.Reset();
    volume := speakers.params[FrontLeft].volume;
  }

  /** First run with the copy: whatever volumes are edited, the default
      table is left alone, so reset always restores the defaults. */
  method EditThenReset(edits: seq<(string, real)>) returns (result: Table)
    ensures result == DefaultSpeakers
  {
    var defaults, speakers := RestoreSpeakers(None);
    var frame := new OptionsFrame(speakers, defaults, DefaultNames);
    var i := 0;
    while i < |edits|
      invariant 0 <= i <= |edits|
      invariant defaults.params == DefaultSpeakers
    {
      var (name, value) := edits[i];
      if name in speakers.params {
        speakers.SetSpeakerVolume(value, name, false);
      }
      i := i + 1;
    }
    frame.Reset();
    result := speakers.params;
  }

  // ---------------------------------------------------------------------
  // Window centering

  /** A monitor's position and size, in pixels. */
  datatype Monitor = Monitor(x: int, y: int, width: int, height: int)

  /** The monitor's rectangle, edges included, holds the point. */
  predicate Covers(m: Monitor, px: int, py: int)
  {
    m.x <= px <= m.x + m.width && m.y <= py <= m.y + m.height
  }

  /** The first monitor holding the window's top-left corner, or a zero
      rectangle at the origin when none does. */
  function ScreenOf(monitors: seq<Monitor>, px: int, py: int): (s: Monitor)
    ensures s == Monitor(0, 0, 0, 0) || s in monitors
    ensures (exists i :: 0 <= i < |monitors| && Covers(monitors[i], px, py)) ==>
      exists i :: 0 <= i < |monitors| && Covers(monitors[i], px, py) && s == monitors[i] &&
        forall j :: 0 <= j < i ==> !Covers(monitors[j], px, py)
    ensures (forall i :: 0 <= i < |monitors| ==> !Covers(monitors[i], px, py)) ==> s == Monitor(0, 0, 0, 0)
  {
    match FirstIndex(monitors, (m: Monitor) => Covers(m, px, py))
    case None => Monitor(0, 0, 0, 0)
    case Some(i) => monitors[i]
  }

  /** `App.center_window`: the screen search with early exit, then the
      top-left corner that centres the window on that screen, rounded
      down. */
  method CenterWindow(monitors: seq<Monitor>, px: int, py: int, windowWidth: int, windowHeight: int,
                      xOffset: int, yOffset: int) returns (x: int, y: int)
    ensures var s := ScreenOf(monitors, px, py);
      && 2 * (x - s.x) <= s.width - windowWidth - xOffset < 2 * (x - s.x) + 2
      && 2 * (y - s.y) <= s.height - windowHeight - yOffset < 2 * (y - s.y) + 2
  {
    var screenX, screenY, screenWidth, screenHeight := 0, 0, 0, 0;
    var i := 0;
    while i < |monitors|
      invariant 0 <= i <= |monitors|
      invariant forall j :: 0 <= j < i ==> !Covers(monitors[j], px, py)
    {
      var m := monitors[i];
      if Covers(m, px, py) {
        screenWidth, screenHeight, screenX, screenY := m.width, m.height, m.x, m.y;
        break;
      }
      i := i + 1;
    }
    ghost var s := Monitor(screenX, screenY, screenWidth, screenHeight);
    assert s == ScreenOf(monitors, px, py) by {
      var p := (m: Monitor) => Covers(m, px, py);
      if i < |monitors| {
        assert p(monitors[i]);
        assert FirstIndex(monitors, p) == Some(i);
      } else {
        assert forall j :: 0 <= j < |monitors| ==> !p(monitors[j]);
      }
    }
    x := screenX + (screenWidth - windowWidth - xOffset) / 2;
    y := screenY + (screenHeight - windowHeight - yOffset) / 2;
  }

  /** The centred window lies inside the chosen screen whenever it fits
      there with its offset. */
  lemma CenteredInside(s: Monitor, x: int, windowWidth: int, xOffset: int)
    requires 2 * (x - s.x) <= s.width - windowWidth - xOffset < 2 * (x - s.x) + 2
    requires 0 <= xOffset && windowWidth + xOffset <= s.width
    ensures s.x <= x && x + windowWidth <= s.x + s.width
  {
  }
}
