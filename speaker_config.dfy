/** The speaker configuration table: a dictionary, shared by the settings
    panel and the player and updated in place, that maps each speaker name
    to its volume and angle (Linux_version/gui_v2.py). */
module SpeakerConfig {
  import opened Common

  /** One entry `{volume, angle, min_angle, max_angle}`; angles are degrees,
      negative to the left of forward. */
  datatype Speaker = Speaker(volume: int, angle: int, minAngle: int, maxAngle: int)

  type Table = map<string, Speaker>

  const FrontLeft: string := "Front " + "left"
  const FrontRight: string := "Front " + "right"
  const FrontCenter: string := "Front center"
  const RearLeft: string := "Rear " + "left"
  const RearRight: string := "Rear " + "right"

  /** The keys of the default table, in the order the dictionary literal
      lists them. */
  const DefaultNames: seq<string> := [FrontLeft, FrontRight, FrontCenter, RearLeft, RearRight]

  /** The `speakers_parameters` entry of the application's default settings. */
  const DefaultSpeakers: Table := map[
    FrontLeft := Speaker(100, -35, -20, -70),
    FrontRight := Speaker(100, 35, 20, 70),
    FrontCenter := Speaker(100, 0, 0, 0),
    RearLeft := Speaker(50, -130, -90, -160),
    RearRight := Speaker(50, 130, 90, 160)]

  // ---------------------------------------------------------------------
  // Python's `sub in s` and `s.replace(pat, rep)` on strings

  predicate StartsWith(s: string, p: string)
  {
    p == [] || (s != [] && s[0] == p[0] && StartsWith(s[1..], p[1..]))
  }

  lemma StartsWithLength(s: string, p: string)
    requires StartsWith(s, p)
    ensures |p| <= |s|
  {
  }

  /** `p` is a prefix of `s`. */
  lemma {:induction false} StartsWithPrefix(s: string, p: string)
    ensures StartsWith(s, p) <==> |p| <= |s| && s[..|p|] == p
    decreases |p|
  {
    if p != [] && s != [] {
      StartsWithPrefix(s[1..], p[1..]);
      if |p| <= |s| {
        assert s[..|p|] == [s[0]] + s[1..][..|p| - 1];
        assert p == [p[0]] + p[1..];
      }
    }
  }

  /** `sub in s` */
  predicate Contains(s: string, sub: string)
  {
    StartsWith(s, sub) || (s != [] && Contains(s[1..], sub))
  }

  /** `sub` occurs in `s` at position `i`. */
  predicate OccursAt(s: string, sub: string, i: int)
  {
    0 <= i && i + |sub| <= |s| && s[i..i + |sub|] == sub
  }

  /** `sub in s` holds exactly when `sub` occurs in `s` at some position. */
  lemma {:induction false} ContainsIsSubstring(s: string, sub: string)
    ensures Contains(s, sub) <==> exists i :: OccursAt(s, sub, i)
    decreases |s|
  {
    StartsWithPrefix(s, sub);
    if s != [] {
      ContainsIsSubstring(s[1..], sub);
      if exists i :: OccursAt(s[1..], sub, i) {
        var i :| OccursAt(s[1..], sub, i);
        assert s[i + 1..i + 1 + |sub|] == s[1..][i..i + |sub|];
        assert OccursAt(s, sub, i + 1);
      }
      if exists i :: OccursAt(s, sub, i) {
        var i :| OccursAt(s, sub, i);
        if i > 0 {
          assert s[1..][i - 1..i - 1 + |sub|] == s[i..i + |sub|];
          assert OccursAt(s[1..], sub, i - 1);
        } else {
          assert s[..|sub|] == s[i..i + |sub|];
        }
      } else {
        assert !OccursAt(s, sub, 0);
      }
    } else {
      if exists i :: OccursAt(s, sub, i) {
        var i :| OccursAt(s, sub, i);
        assert s[..|sub|] == s[i..i + |sub|];
      } else {
        assert !OccursAt(s, sub, 0);
      }
    }
  }

  /** `s.replace(pat, rep)`: every non-overlapping occurrence of `pat`,
      scanning from the left, is replaced by `rep`. */
  function ReplaceAll(s: string, pat: string, rep: string): (r: string)
    requires pat != []
    ensures pat == rep ==> r == s
    decreases |s|
  {
    if s == [] then s
    else if StartsWith(s, pat) then
      StartsWithLength(s, pat);
      StartsWithPrefix(s, pat);
      assert s == s[..|pat|] + s[|pat|..];
      rep + ReplaceAll(s[|pat|..], pat, rep)
    else [s[0]] + ReplaceAll(s[1..], pat, rep)
  }

  /** A string without an occurrence of `pat` is left as it is. */
  lemma {:induction false} ReplaceAbsent(s: string, pat: string, rep: string)
    requires pat != [] && !Contains(s, pat)
    ensures ReplaceAll(s, pat, rep) == s
    decreases |s|
  {
    if s != [] {
      ReplaceAbsent(s[1..], pat, rep);
    }
  }

  /** `__find_mirror_speaker_name`: the speaker on the other side. */
  function MirrorName(name: string): string
  {
    if Contains(name, "left") then ReplaceAll(name, "left", "right")
    else ReplaceAll(name, "right", "left")
  }

  /** A name that names neither side is its own mirror. */
  lemma MirrorOfSideless(name: string)
    requires !Contains(name, "left") && !Contains(name, "right")
    ensures MirrorName(name) == name
  {
    ReplaceAbsent(name, "right", "left");
  }

  /** A pattern holding a character that `s` lacks does not start `s`. */
  lemma {:induction false} NotStartsWith(s: string, pat: string, j: nat)
    requires j < |pat| && pat[j] !in s
    ensures !StartsWith(s, pat)
    decreases j
  {
    if j > 0 && s != [] && s[0] == pat[0] {
      assert pat[1..][j - 1] == pat[j];
      assert pat[j] !in s[1..] by {
        forall k | 0 <= k < |s[1..]|
          ensures s[1..][k] != pat[j]
        {
          assert s[1..][k] == s[k + 1];
        }
      }
      NotStartsWith(s[1..], pat[1..], j - 1);
    }
  }

  /** Strings that differ at a position inside the pattern do not match. */
  lemma {:induction false} MismatchAt(s: string, pat: string, j: nat)
    requires j < |s| && j < |pat| && s[j] != pat[j]
    ensures !StartsWith(s, pat)
    decreases j
  {
    if j > 0 && s[0] == pat[0] {
      assert s[1..][j - 1] == s[j] && pat[1..][j - 1] == pat[j];
      MismatchAt(s[1..], pat[1..], j - 1);
    }
  }

  /** A pattern holding a character that `s` lacks does not occur in `s`. */
  lemma {:induction false} AbsentChar(s: string, pat: string, j: nat)
    requires j < |pat| && pat[j] !in s
    ensures !Contains(s, pat)
    decreases |s|
  {
    NotStartsWith(s, pat, j);
    if s != [] {
      assert pat[j] !in s[1..] by {
        forall k | 0 <= k < |s[1..]|
          ensures s[1..][k] != pat[j]
        {
          assert s[1..][k] == s[k + 1];
        }
      }
      AbsentChar(s[1..], pat, j);
    }
  }

  /** A pattern placed after any prefix occurs in the string. */
  lemma {:induction false} ContainsAfter(a: string, p: string, b: string)
    ensures Contains(a + p + b, p)
    decreases |a|
  {
    if a == [] {
      assert a + p + b == p + b;
      StartsWithItself(p, b);
    } else {
      assert (a + p + b)[1..] == a[1..] + p + b;
      ContainsAfter(a[1..], p, b);
    }
  }

  lemma HasLeftFrontLeft()
    ensures Contains(FrontLeft, "left")
  {
    ContainsAfter("Front ", "left", []);
    assert FrontLeft + [] == FrontLeft;
  }

  lemma HasNoRightFrontLeft()
    ensures !Contains(FrontLeft, "right")
  {
    AbsentChar(FrontLeft, "right", 2);
  }

  lemma HasRightFrontRight()
    ensures Contains(FrontRight, "right")
  {
    ContainsAfter("Front ", "right", []);
    assert FrontRight + [] == FrontRight;
  }

  lemma HasNoLeftFrontRight()
    ensures !Contains(FrontRight, "left")
  {
    AbsentChar(FrontRight, "left", 0);
  }

  lemma HasLeftRearLeft()
    ensures Contains(RearLeft, "left")
  {
    ContainsAfter("Rear ", "left", []);
    assert RearLeft + [] == RearLeft;
  }

  lemma HasNoRightRearLeft()
    ensures !Contains(RearLeft, "right")
  {
    AbsentChar(RearLeft, "right", 2);
  }

  lemma HasRightRearRight()
    ensures Contains(RearRight, "right")
  {
    ContainsAfter("Rear ", "right", []);
    assert RearRight + [] == RearRight;
  }

  lemma HasNoLeftRearRight()
    ensures !Contains(RearRight, "left")
  {
    AbsentChar(RearRight, "left", 0);
  }

  lemma HasNoLeftFrontCenter()
    ensures !Contains("Front center", "left")
  {
    AbsentChar("Front center", "left", 0);
  }

  lemma HasNoRightFrontCenter()
    ensures !Contains("Front center", "right")
  {
    AbsentChar("Front center", "right", 2);
  }

  lemma {:induction false} StartsWithItself(p: string, b: string)
    ensures StartsWith(p + b, p)
    decreases |p|
  {
    if p != [] {
      assert (p + b)[1..] == p[1..] + b;
      StartsWithItself(p[1..], b);
    }
  }

  /** Characters that cannot start `pat` are copied through. */
  lemma {:induction false} ReplaceSkip(a: string, b: string, pat: string, rep: string)
    requires pat != [] && pat[0] !in a
    ensures ReplaceAll(a + b, pat, rep) == a + ReplaceAll(b, pat, rep)
    decreases |a|
  {
    if a != [] {
      assert (a + b)[0] == a[0] != pat[0];
      assert (a + b)[1..] == a[1..] + b;
      ReplaceSkip(a[1..], b, pat, rep);
      assert [a[0]] + a[1..] == a;
    } else {
      assert a + b == b;
    }
  }

  /** A string that does not start with `pat` keeps its first character. */
  lemma ReplaceMiss(s: string, pat: string, rep: string)
    requires pat != [] && s != [] && !StartsWith(s, pat)
    ensures ReplaceAll(s, pat, rep) == [s[0]] + ReplaceAll(s[1..], pat, rep)
  {
  }

  /** A leading occurrence of `pat` becomes `rep`. */
  lemma ReplaceHit(pat: string, b: string, rep: string)
    requires pat != []
    ensures ReplaceAll(pat + b, pat, rep) == rep + ReplaceAll(b, pat, rep)
  {
    StartsWithItself(pat, b);
    assert (pat + b)[|pat|..] == b;
  }

  /** The pattern alone is replaced whole. */
  lemma ReplaceWord(pat: string, rep: string)
    requires pat != []
    ensures ReplaceAll(pat, pat, rep) == rep
  {
    ReplaceHit(pat, [], rep);
    assert pat + [] == pat && rep + [] == rep;
  }

  lemma ReplaceFrontLeft()
    ensures ReplaceAll(FrontLeft, "left", "right") == FrontRight
  {
    ReplaceSkip("Front ", "left", "left", "right");
    ReplaceWord("left", "right");
  }

  lemma ReplaceFrontRight()
    ensures ReplaceAll(FrontRight, "right", "left") == FrontLeft
  {
    var tail := "ront " + "right";
    assert FrontRight == "F" + tail;
    ReplaceSkip("F", tail, "right", "left");
    MismatchAt(tail, "right", 1);
    ReplaceMiss(tail, "right", "left");
    assert tail[1..] == "ont " + "right";
    ReplaceSkip("ont ", "right", "right", "left");
    ReplaceWord("right", "left");
    assert "F" + ([tail[0]] + ("ont " + "left")) == FrontLeft;
  }

  lemma ReplaceRearLeft()
    ensures ReplaceAll(RearLeft, "left", "right") == RearRight
  {
    ReplaceSkip("Rear ", "left", "left", "right");
    ReplaceWord("left", "right");
  }

  lemma ReplaceRearRight()
    ensures ReplaceAll(RearRight, "right", "left") == RearLeft
  {
    var tail := "r " + "right";
    assert RearRight == "Rea" + tail;
    ReplaceSkip("Rea", tail, "right", "left");
    MismatchAt(tail, "right", 1);
    ReplaceMiss(tail, "right", "left");
    assert tail[1..] == " " + "right";
    ReplaceSkip(" ", "right", "right", "left");
    ReplaceWord("right", "left");
    assert "Rea" + ([tail[0]] + (" " + "left")) == RearLeft;
  }

  /** The mirror of each default speaker name. */
  lemma MirrorOfDefaults()
    ensures MirrorName(FrontLeft) == FrontRight
    ensures MirrorName(FrontRight) == FrontLeft
    ensures MirrorName(RearLeft) == RearRight
    ensures MirrorName(RearRight) == RearLeft
    ensures MirrorName(FrontCenter) == FrontCenter
  {
    SidesOfDefaults();
    MirrorOfSideless(FrontCenter);
    ReplaceFrontLeft();
    ReplaceFrontRight();
    ReplaceRearLeft();
    ReplaceRearRight();
  }

  /** Over the default speakers, mirroring is an involution that fixes only
      the centre speaker. */
  lemma MirrorInvolution(name: string)
    requires name in DefaultSpeakers
    ensures MirrorName(name) in DefaultSpeakers
    ensures MirrorName(MirrorName(name)) == name
    ensures MirrorName(name) == name <==> name == FrontCenter
  {
    DefaultKeys(name);
    MirrorOfDefaults();
    if name == FrontLeft {
      assert FrontRight in DefaultSpeakers && FrontLeft != FrontCenter;
    } else if name == FrontRight {
      assert FrontLeft in DefaultSpeakers && FrontRight != FrontCenter;
    } else if name == RearLeft {
      assert RearRight in DefaultSpeakers && RearLeft != FrontCenter;
    } else if name == RearRight {
      assert RearLeft in DefaultSpeakers && RearRight != FrontCenter;
    }
  }

  /** The default table has exactly the five default speakers. */
  lemma DefaultKeys(name: string)
    requires name in DefaultSpeakers
    ensures name == FrontLeft || name == FrontRight || name == FrontCenter || name == RearLeft || name == RearRight
  {
  }

  // ---------------------------------------------------------------------
  // The setters of the speaker settings panel

  /** `int(math.copysign(value, sign))` where `sign` is a stored int angle:
      the magnitude of `value`, truncated, with the sign of `sign` (an angle
      of 0 counts as positive). */
  function CopySignInt(value: real, sign: int): (r: int)
    ensures (if r < 0 then -r else r) == Abs(value).Floor
    ensures sign >= 0 ==> r >= 0
    ensures sign < 0 ==> r <= 0
  {
    Trunc(if sign >= 0 then Abs(value) else -Abs(value))
  }

  /** Copying the sign twice changes nothing: the result already carries a
      sign compatible with the first one. */
  lemma CopySignStable(value: real, sign: int)
    ensures CopySignInt(value, CopySignInt(value, sign)) == CopySignInt(value, sign)
  {
  }

  /** A stored int angle keeps its value when it is copied onto itself. */
  lemma CopySignSelf(angle: int)
    ensures CopySignInt(angle as real, angle) == angle
  {
  }

  /** The table after `set_speaker_volume_parameter(value, name)`. */
  function WithVolume(m: Table, name: string, value: real, mirroring: bool): (r: Table)
    requires name in m && (mirroring ==> MirrorName(name) in m)
    ensures r.Keys == m.Keys
    ensures r[name].volume == Trunc(value)
    ensures mirroring ==> r[MirrorName(name)].volume == Trunc(value)
    ensures forall k :: k in m ==> r[k] == m[k].(volume := r[k].volume)
    ensures forall k :: k in m && k != name && !(mirroring && k == MirrorName(name)) ==> r[k] == m[k]
  {
    var m1 := m[name := m[name].(volume := Trunc(value))];
    if mirroring then
      var mirror := MirrorName(name);
      m1[mirror := m1[mirror].(volume := Trunc(value))]
    else m1
  }

  /** The table after `set_speaker_angle_parameter(value, name)`: every
      speaker updated gets the magnitude of `value` and keeps its own sign. */
  function WithAngle(m: Table, name: string, value: real, mirroring: bool): (r: Table)
    requires name in m && (mirroring ==> MirrorName(name) in m)
    ensures r.Keys == m.Keys
    ensures r[name].angle == CopySignInt(value, m[name].angle)
    ensures mirroring ==> r[MirrorName(name)].angle == CopySignInt(value, m[MirrorName(name)].angle)
    ensures forall k :: k in m ==> r[k] == m[k].(angle := r[k].angle)
    ensures forall k :: k in m && k != name && !(mirroring && k == MirrorName(name)) ==> r[k] == m[k]
  {
    var m1 := m[name := m[name].(angle := CopySignInt(value, m[name].angle))];
    if mirroring then
      var mirror := MirrorName(name);
      CopySignStable(value, m[name].angle);
      m1[mirror := m1[mirror].(angle := CopySignInt(value, m1[mirror].angle))]
    else m1
  }

  /** The shared `speakers_parameters` dictionary. */
  class SpeakerTable {
    var params: Table

    constructor (init: Table)
      ensures params == init
    {
      params := init;
    }

    /** `SpeakerSettingsFrame.set_speaker_volume_parameter` */
    method SetSpeakerVolume(value: real, name: string, mirroring: bool)
      requires name in params && (mirroring ==> MirrorName(name) in params)
      modifies this
      ensures params == WithVolume(old(params), name, value, mirroring)
    {
      params := params[name := params[name].(volume := Trunc(value))];
      if mirroring {
        var mirror := MirrorName(name);
        params := params[mirror := params[mirror].(volume := Trunc(value))];
      }
    }

    /** `SpeakerSettingsFrame.set_speaker_angle_parameter` */
    method SetSpeakerAngle(value: real, name: string, mirroring: bool)
      requires name in params && (mirroring ==> MirrorName(name) in params)
      modifies this
      ensures params == WithAngle(old(params), name, value, mirroring)
    {
      params := params[name := params[name].(angle := CopySignInt(value, params[name].angle))];
      if mirroring {
        var mirror := MirrorName(name);
        params := params[mirror := params[mirror].(angle := CopySignInt(value, params[mirror].angle))];
      }
    }
  }

  // ---------------------------------------------------------------------
  // The mirror-propagation pass of the options panel

  /** One iteration of the pass for `name`: a speaker on the leading side
      re-applies its own volume and angle with mirroring on. */
  function PushToMirror(m: Table, name: string, lead: string): Table
    requires Contains(name, lead) ==> name in m && MirrorName(name) in m
  {
    if Contains(name, lead) then
      var m1 := WithVolume(m, name, m[name].volume as real, true);
      WithAngle(m1, name, m1[name].angle as real, true)
    else m
  }

  /** Every speaker on the leading side, and its mirror, is in the table. */
  predicate Pushable(m: Table, names: seq<string>, lead: string)
  {
    forall i :: 0 <= i < |names| && Contains(names[i], lead) ==> names[i] in m && MirrorName(names[i]) in m
  }

  /** The table after the pass over `names`, in order. */
  function MirrorPass(m: Table, names: seq<string>, lead: string): (r: Table)
    requires Pushable(m, names, lead)
    ensures r.Keys == m.Keys
    decreases |names|
  {
    if names == [] then m
    else
      var prefix := names[..|names| - 1];
      assert Pushable(m, prefix, lead);
      PushToMirror(MirrorPass(m, prefix, lead), names[|names| - 1], lead)
  }

  /** The mirrors of the leading-side speakers are themselves off the
      leading side, and no two leading-side speakers share a mirror. */
  ghost predicate MirrorsSeparate(names: seq<string>, lead: string)
  {
    && (forall i :: 0 <= i < |names| && Contains(names[i], lead) ==> !Contains(MirrorName(names[i]), lead))
    && (forall i, j ::
          (0 <= i < |names| && 0 <= j < |names| && Contains(names[i], lead) && Contains(names[j], lead) &&
           MirrorName(names[i]) == MirrorName(names[j])) ==> names[i] == names[j])
  }

  ghost predicate IsMirrorTarget(k: string, names: seq<string>, lead: string)
  {
    exists i :: 0 <= i < |names| && Contains(names[i], lead) && k == MirrorName(names[i])
  }

  /** What the pass gives `target` when `source` pushes onto it. */
  function Pushed(source: Speaker, target: Speaker): Speaker
  {
    target.(volume := source.volume, angle := CopySignInt(source.angle as real, target.angle))
  }

  /** Pushing twice from the same source gives what pushing once gives. */
  lemma PushedTwice(source: Speaker, target: Speaker)
    ensures Pushed(source, Pushed(source, target)) == Pushed(source, target)
  {
    CopySignStable(source.angle as real, target.angle);
  }

  /** One push: the leading speaker is unchanged, its mirror takes the
      leading volume and angle magnitude and keeps its own sign. */
  lemma PushEffect(m: Table, name: string, lead: string)
    requires Contains(name, lead) && name in m && MirrorName(name) in m
    requires !Contains(MirrorName(name), lead)
    ensures var r := PushToMirror(m, name, lead);
      && r.Keys == m.Keys
      && r[name] == m[name]
      && r[MirrorName(name)] == Pushed(m[name], m[MirrorName(name)])
      && forall k :: k in m && k != MirrorName(name) ==> r[k] == m[k]
  {
    var mirror := MirrorName(name);
    assert mirror != name;
    var m1 := WithVolume(m, name, m[name].volume as real, true);
    CopySignSelf(m1[name].angle);
  }

  /** `r` is what the pass over `names` should leave of `m`. */
  ghost predicate PassResult(m: Table, r: Table, names: seq<string>, lead: string)
  {
    && r.Keys == m.Keys
    && (forall i :: 0 <= i < |names| && Contains(names[i], lead) ==>
          names[i] in m && MirrorName(names[i]) in m &&
          r[names[i]] == m[names[i]] && r[MirrorName(names[i])] == Pushed(m[names[i]], m[MirrorName(names[i])]))
    && (forall k :: k in m && !IsMirrorTarget(k, names, lead) ==> r[k] == m[k])
  }

  /** A mirror target of a prefix is a mirror target of the whole. */
  lemma PrefixTarget(k: string, names: seq<string>, lead: string)
    requires names != []
    ensures IsMirrorTarget(k, names[..|names| - 1], lead) ==> IsMirrorTarget(k, names, lead)
  {
    var prefix := names[..|names| - 1];
    if IsMirrorTarget(k, prefix, lead) {
      var i :| 0 <= i < |prefix| && Contains(prefix[i], lead) && k == MirrorName(prefix[i]);
      assert names[i] == prefix[i];
    }
  }

  /** A leading-side speaker is nobody's mirror. */
  lemma LeadingNotTarget(n: string, names: seq<string>, lead: string)
    requires MirrorsSeparate(names, lead) && Contains(n, lead)
    ensures !IsMirrorTarget(n, names, lead)
  {
    forall i | 0 <= i < |names| && Contains(names[i], lead)
      ensures n != MirrorName(names[i])
    {
    }
  }

  /** A name off the leading side adds nothing to the pass. */
  lemma PassStepIdle(m: Table, r: Table, names: seq<string>, lead: string)
    requires names != [] && !Contains(names[|names| - 1], lead)
    requires PassResult(m, r, names[..|names| - 1], lead)
    ensures PassResult(m, r, names, lead)
  {
    var prefix := names[..|names| - 1];
    forall k | k in m && !IsMirrorTarget(k, names, lead)
      ensures r[k] == m[k]
    {
      PrefixTarget(k, names, lead);
    }
    forall i | 0 <= i < |names| && Contains(names[i], lead)
      ensures names[i] in m && MirrorName(names[i]) in m
      ensures r[names[i]] == m[names[i]] && r[MirrorName(names[i])] == Pushed(m[names[i]], m[MirrorName(names[i])])
    {
      assert names[i] == prefix[i];
    }
  }

  /** A leading-side name pushes onto its mirror and disturbs nothing the
      earlier names established. */
  lemma PassStepPush(m: Table, r: Table, names: seq<string>, lead: string)
    requires names != [] && Contains(names[|names| - 1], lead)
    requires Pushable(m, names, lead) && MirrorsSeparate(names, lead)
    requires PassResult(m, r, names[..|names| - 1], lead)
    ensures PassResult(m, PushToMirror(r, names[|names| - 1], lead), names, lead)
  {
    var last := names[|names| - 1];
    var mirror := MirrorName(last);
    assert last in m && mirror in m && !Contains(mirror, lead);
    PushEffect(r, last, lead);
    var r' := PushToMirror(r, last, lead);
    PushTargetReady(m, r, names, lead);
    assert r'[last] == m[last];
    assert r'[mirror] == Pushed(m[last], m[mirror]);
    PushKeepsEarlier(m, r, r', names, lead);
    PushKeepsOthers(m, r, r', names, lead);
  }

  /** Before the last name pushes, it still holds its own values (it is
      nobody's mirror), and its mirror holds either its own values or what
      an earlier push from the same name gave it. */
  lemma PushTargetReady(m: Table, r: Table, names: seq<string>, lead: string)
    requires names != [] && Contains(names[|names| - 1], lead)
    requires Pushable(m, names, lead) && MirrorsSeparate(names, lead)
    requires PassResult(m, r, names[..|names| - 1], lead)
    ensures var last := names[|names| - 1];
      && last in r && MirrorName(last) in r && r[last] == m[last]
      && Pushed(r[last], r[MirrorName(last)]) == Pushed(m[last], m[MirrorName(last)])
  {
    var prefix := names[..|names| - 1];
    var last := names[|names| - 1];
    var mirror := MirrorName(last);
    LeadingNotTarget(last, names, lead);
    PrefixTarget(last, names, lead);
    if IsMirrorTarget(mirror, prefix, lead) {
      var i :| 0 <= i < |prefix| && Contains(prefix[i], lead) && mirror == MirrorName(prefix[i]);
      assert prefix[i] == names[i];
      assert MirrorName(names[i]) == MirrorName(names[|names| - 1]);
      assert prefix[i] == last;
      PushedTwice(m[last], m[mirror]);
    }
  }

  /** A speaker that is no leading-side name's mirror is untouched by the
      push from the last name. */
  lemma PushKeepsOthers(m: Table, r: Table, r': Table, names: seq<string>, lead: string)
    requires names != [] && Contains(names[|names| - 1], lead)
    requires PassResult(m, r, names[..|names| - 1], lead)
    requires r'.Keys == r.Keys
    requires forall k :: k in r && k != MirrorName(names[|names| - 1]) ==> r'[k] == r[k]
    ensures forall k :: k in m && !IsMirrorTarget(k, names, lead) ==> r'[k] == m[k]
  {
    forall k | k in m && !IsMirrorTarget(k, names, lead)
      ensures r'[k] == m[k]
    {
      assert k != MirrorName(names[|names| - 1]);
      PrefixTarget(k, names, lead);
    }
  }

  /** The entries the earlier leading-side names established survive the
      push from the last name. */
  lemma PushKeepsEarlier(m: Table, r: Table, r': Table, names: seq<string>, lead: string)
    requires names != [] && MirrorsSeparate(names, lead)
    requires PassResult(m, r, names[..|names| - 1], lead)
    requires var last := names[|names| - 1];
      && Contains(last, lead) && last in m && MirrorName(last) in m
      && r'.Keys == r.Keys && r'[last] == m[last]
      && r'[MirrorName(last)] == Pushed(m[last], m[MirrorName(last)])
      && forall k :: k in r && k != MirrorName(last) ==> r'[k] == r[k]
    ensures forall i :: 0 <= i < |names| && Contains(names[i], lead) ==>
      names[i] in m && MirrorName(names[i]) in m &&
      r'[names[i]] == m[names[i]] && r'[MirrorName(names[i])] == Pushed(m[names[i]], m[MirrorName(names[i])])
  {
    var prefix := names[..|names| - 1];
    var last := names[|names| - 1];
    forall i | 0 <= i < |names| && Contains(names[i], lead)
      ensures names[i] in m && MirrorName(names[i]) in m
      ensures r'[names[i]] == m[names[i]] && r'[MirrorName(names[i])] == Pushed(m[names[i]], m[MirrorName(names[i])])
    {
      if i == |names| - 1 {
        assert names[i] == last;
      } else {
        assert names[i] == prefix[i];
        LeadingNotTarget(names[i], names, lead);
        assert names[i] != MirrorName(last);
        if MirrorName(names[i]) == MirrorName(last) {
          assert names[i] == last;
        }
      }
    }
  }

  /** The mirror pass, over names whose mirrors are separate: every
      leading-side speaker keeps its values, its mirror receives its volume
      and angle magnitude with the mirror's own sign, and every other
      speaker is untouched. */
  lemma {:induction false} MirrorPassEffect(m: Table, names: seq<string>, lead: string)
    requires Pushable(m, names, lead) && MirrorsSeparate(names, lead)
    ensures PassResult(m, MirrorPass(m, names, lead), names, lead)
    decreases |names|
  {
    if names != [] {
      var prefix := names[..|names| - 1];
      assert Pushable(m, prefix, lead);
      assert MirrorsSeparate(prefix, lead);
      MirrorPassEffect(m, prefix, lead);
      if Contains(names[|names| - 1], lead) {
        PassStepPush(m, MirrorPass(m, prefix, lead), names, lead);
      } else {
        PassStepIdle(m, MirrorPass(m, prefix, lead), names, lead);
      }
    }
  }

  /** Which side each default speaker is on. */
  lemma SidesOfDefaults()
    ensures Contains(FrontLeft, "left") && !Contains(FrontLeft, "right")
    ensures Contains(FrontRight, "right") && !Contains(FrontRight, "left")
    ensures Contains(RearLeft, "left") && !Contains(RearLeft, "right")
    ensures Contains(RearRight, "right") && !Contains(RearRight, "left")
    ensures !Contains(FrontCenter, "left") && !Contains(FrontCenter, "right")
  {
    HasLeftFrontLeft();
    HasNoRightFrontLeft();
    HasRightFrontRight();
    HasNoLeftFrontRight();
    HasLeftRearLeft();
    HasNoRightRearLeft();
    HasRightRearRight();
    HasNoLeftRearRight();
    HasNoLeftFrontCenter();
    HasNoRightFrontCenter();
  }

  /** The five default names are pairwise different: the side names
      differ from each other in their seventh or sixth character, and from
      the centre name in length or in the first character. */
  lemma DefaultNamesDistinct()
    ensures FrontLeft != FrontRight && FrontLeft != FrontCenter && FrontLeft != RearLeft && FrontLeft != RearRight
    ensures FrontRight != FrontCenter && FrontRight != RearLeft && FrontRight != RearRight
    ensures FrontCenter != RearLeft && FrontCenter != RearRight && RearLeft != RearRight
  {
    assert FrontLeft[6] != FrontRight[6] && |FrontLeft| != |FrontCenter|;
    assert FrontLeft[0] != RearLeft[0] && FrontLeft[0] != RearRight[0];
    assert FrontRight[6] != FrontCenter[6] && FrontRight[0] != RearLeft[0] && FrontRight[0] != RearRight[0];
    assert FrontCenter[0] != RearLeft[0] && FrontCenter[0] != RearRight[0] && RearLeft[5] != RearRight[5];
  }

  /** The front-left speaker of the default table is at full volume. */
  lemma DefaultFrontLeft()
    ensures FrontLeft in DefaultSpeakers && DefaultSpeakers[FrontLeft].volume == 100
  {
    DefaultNamesDistinct();
  }

  lemma DefaultNamesKnown(i: int)
    requires 0 <= i < |DefaultNames|
    ensures DefaultNames[i] in DefaultSpeakers
  {
    assert DefaultNames[0] == FrontLeft && DefaultNames[1] == FrontRight && DefaultNames[2] == FrontCenter;
    assert DefaultNames[3] == RearLeft && DefaultNames[4] == RearRight;
  }

  lemma DefaultsPushable(m: Table, lead: string)
    requires m.Keys == DefaultSpeakers.Keys
    ensures Pushable(m, DefaultNames, lead)
  {
    forall i | 0 <= i < |DefaultNames|
      ensures DefaultNames[i] in m && MirrorName(DefaultNames[i]) in m
    {
      DefaultNamesKnown(i);
      MirrorInvolution(DefaultNames[i]);
    }
  }

  /** A sided default speaker's mirror is on the other side. */
  lemma CrossSide(name: string, lead: string)
    requires name == FrontLeft || name == FrontRight || name == FrontCenter || name == RearLeft || name == RearRight
    requires lead == "left" || lead == "right"
    ensures Contains(name, lead) ==> !Contains(MirrorName(name), lead)
  {
    MirrorOfDefaults();
    SidesOfDefaults();
    if name == FrontLeft {
      CrossSideOf(FrontLeft, FrontRight, lead);
    } else if name == RearLeft {
      CrossSideOf(RearLeft, RearRight, lead);
    } else if name == FrontRight {
      CrossSideOf(FrontRight, FrontLeft, lead);
    } else if name == RearRight {
      CrossSideOf(RearRight, RearLeft, lead);
    } else {
      assert name == FrontCenter;
    }
  }

  lemma CrossSideOf(a: string, b: string, lead: string)
    requires lead == "left" || lead == "right"
    requires Contains(a, "left") <==> !Contains(a, "right")
    requires Contains(b, "left") <==> !Contains(b, "right")
    requires Contains(a, "left") <==> Contains(b, "right")
    ensures Contains(a, lead) ==> !Contains(b, lead)
  {
  }

  lemma DefaultsCrossSide(lead: string)
    requires lead == "left" || lead == "right"
    ensures forall i :: 0 <= i < |DefaultNames| && Contains(DefaultNames[i], lead) ==>
      !Contains(MirrorName(DefaultNames[i]), lead)
  {
    forall i | 0 <= i < |DefaultNames|
      ensures Contains(DefaultNames[i], lead) ==> !Contains(MirrorName(DefaultNames[i]), lead)
    {
      DefaultNamesKnown(i);
      CrossSide(DefaultNames[i], lead);
    }
  }

  /** No two default speakers share a mirror. */
  lemma DefaultsMirrorInjective()
    ensures forall i, j ::
      (0 <= i < |DefaultNames| && 0 <= j < |DefaultNames| && MirrorName(DefaultNames[i]) == MirrorName(DefaultNames[j]))
      ==> DefaultNames[i] == DefaultNames[j]
  {
    forall i, j | 0 <= i < |DefaultNames| && 0 <= j < |DefaultNames|
      ensures MirrorName(DefaultNames[i]) == MirrorName(DefaultNames[j]) ==> DefaultNames[i] == DefaultNames[j]
    {
      DefaultNamesKnown(i);
      DefaultNamesKnown(j);
      MirrorInvolution(DefaultNames[i]);
      MirrorInvolution(DefaultNames[j]);
    }
  }

  /** The default speakers meet the conditions of MirrorPassEffect for
      either leading side. */
  lemma DefaultMirrorsSeparate(m: Table, lead: string)
    requires m.Keys == DefaultSpeakers.Keys
    requires lead == "left" || lead == "right"
    ensures Pushable(m, DefaultNames, lead) && MirrorsSeparate(DefaultNames, lead)
  {
    DefaultsPushable(m, lead);
    DefaultsCrossSide(lead);
    DefaultsMirrorInjective();
  }
}
