/**
 * The one-shot level triggers of Assets/Scripts/Level/Trigger: LVL1_HideJumpTooltip,
 * LVL3_SafeLaserTurrets, LVL3_LikeTheMelody and LVL4_AmIUntrustworthy. Each
 * loads one scripted event the first time an object tagged "Player" enters
 * it, and never again.
 */
module LevelTriggers {

  import opened Options

  /** A ScriptedEventsManager.LoadEvent call: the level and the event's name. */
  datatype Event = LoadEvent(level: int, name: string)

  /** The four trigger scripts. */
  datatype Script = HideJumpTooltip | SafeLaserTurrets | LikeTheMelody | AmIUntrustworthy

  /** The event each script loads. */
  function EventOf(s: Script): (e: Event)
    ensures s == HideJumpTooltip ==> e == LoadEvent(1, "hide_jump_tooltip")
    ensures s == SafeLaserTurrets ==> e == LoadEvent(3, "safe_laser_turrets")
    ensures s == LikeTheMelody ==> e == LoadEvent(3, "like_the_melody")
    ensures s == AmIUntrustworthy ==> e == LoadEvent(4, "am_i_untrustworthy")
  {
    match s
    case HideJumpTooltip => LoadEvent(1, "hide_jump_tooltip")
    case SafeLaserTurrets => LoadEvent(3, "safe_laser_turrets")
    case LikeTheMelody => LoadEvent(3, "like_the_melody")
    case AmIUntrustworthy => LoadEvent(4, "am_i_untrustworthy")
  }

  /**
   * One OnTriggerEnter2D on the latch: the new latch value and the event it
   * loads, if any.
   */
  function Enter(s: Script, played: bool, tag: string): (r: (bool, Option<Event>))
    ensures r.1.Some? <==> !played && tag == "Player"
    ensures r.1.Some? ==> r.1.value == EventOf(s)
    ensures r.0 == (played || tag == "Player")
  {
    if !played && tag == "Player" then (true, Some(EventOf(s))) else (played, None)
  }

  /** The events a series of entries loads, starting from the latch value `played`. */
  function Fired(s: Script, played: bool, tags: seq<string>): seq<Event>
    decreases |tags|
  {
    if |tags| == 0 then []
    else
      var (next, e) := Enter(s, played, tags[0]);
      (if e.Some? then [e.value] else []) + Fired(s, next, tags[1..])
  }

  /**
   * However many objects enter, a trigger that starts unplayed loads its event
   * once if some entering object is tagged "Player" and not at all otherwise;
   * one that has played loads nothing.
   */
  lemma {:induction false} FiresAtMostOnce(s: Script, played: bool, tags: seq<string>)
    ensures played ==> Fired(s, played, tags) == []
    ensures !played ==> Fired(s, played, tags) == if "Player" in tags then [EventOf(s)] else []
    decreases |tags|
  {
    if |tags| > 0 {
      var (next, e) := Enter(s, played, tags[0]);
      FiresAtMostOnce(s, next, tags[1..]);
      assert tags == [tags[0]] + tags[1..];
      assert "Player" in tags <==> tags[0] == "Player" || "Player" in tags[1..];
    }
  }

  class Trigger {
    const script: Script
    /** playedEventAlready, or playedDialogAlready in the level 3 scripts. */
    var playedAlready: bool

    /** Awake: the latch starts open. */
    constructor (s: Script)
      ensures script == s && !playedAlready
    {
      script := s;
      playedAlready := false;
    }

    /** OnTriggerEnter2D for a collider whose object carries `tag`. */
    method OnTriggerEnter2D(tag: string) returns (fired: Option<Event>)
      modifies this`playedAlready
      ensures (playedAlready, fired) == Enter(script, old(playedAlready), tag)
    {
      fired := None;
      if !playedAlready && tag == "Player" {
        playedAlready := true;
        fired := Some(EventOf(script));
      }
    }
  }

}
