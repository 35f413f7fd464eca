/**
 * The dialog system of Assets/Scripts/DialogSystem.cs: a first-in first-out
 * queue of dialog names, the table from dialog names to text, voice clip and
 * robot icon, and the typewriter that shows the text one character more per
 * step. The coroutine PlayDialog is split at its waits into three steps.
 */
module DialogQueue {

  import opened Options

  /** The nine robot icon names, in the order of their sprites. */
  const IconNames: seq<string> :=
    ["neutral", "happy", "laughing", "surprised", "sleepy", "annoyed", "angry", "furious", "sad"]

  /** getIndex: the sprite index of an icon name; unknown names show the neutral icon. */
  function IconIndex(iconName: string): (i: nat)
    ensures i < |IconNames|
    ensures iconName in IconNames ==> IconNames[i] == iconName
    ensures iconName !in IconNames ==> i == 0
  {
    match iconName
    case "neutral" => 0
    case "happy" => 1
    case "laughing" => 2
    case "surprised" => 3
    case "sleepy" => 4
    case "annoyed" => 5
    case "angry" => 6
    case "furious" => 7
    case "sad" => 8
    case _ => 0
  }

  /** Every listed icon name is mapped to its own position in the list. */
  lemma IconIndexInOrder(k: nat)
    requires k < |IconNames|
    ensures IconIndex(IconNames[k]) == k
  {
    var n := IconNames[k];
    assert IconNames[IconIndex(n)] == n;
    assert forall j, l :: 0 <= j < l < |IconNames| ==> IconNames[j] != IconNames[l];
  }

  /** The settings setDialogue is called with: text, audio path and icon name. */
  datatype DialogEntry = DialogEntry(text: string, audio: string, icon: string)

  /** The dialog names of level 1 the table knows. */
  const DialogNames: seq<string> :=
    ["lvl1_hello", "lvl1_asleep", "lvl1_move", "lvl1_jump", "lvl1_dont_jump_into_water",
     "lvl1_not_the_smartest_circle", "lvl1_quick_compared_to_other_circles", "lvl1_morph"]

  /** The texts of the level 1 dialogs. */
  const HelloText: string := "Hello, my little friend!\nDo you have some time to help me out?"
  const AsleepText: string := "Is this fellow asleep perhaps?"
  const MoveText: string := "Finally, that's better!\nNow that you're awake, can you walk or roll around?"
  const JumpText: string := "Little friend, are you able to jump over that thing?"
  const WaterText: string := "I wouldn't jump into the water if I were you.\nBecause that isn't water, and it is deadly."
  const SmartestText: string := "You really aren't the smartest circle out there, isn't that right?"
  const QuickText: string := "I have to compliment you! Once you finally woke up, you're actually quite quick on foot, especially in comparison to other circles!"
  const MorphText: string := "No matter how fast you are, sometimes you just can't overcome an obstacle as a circle."

  /** The switch of LoadDialogSettings. */
  function DialogFor(name: string): (r: Option<DialogEntry>)
    ensures r.Some? <==> name in DialogNames
    ensures r.Some? ==> r.value.audio == name && r.value.icon in IconNames && |r.value.text| > 0
  {
    match name
    case "lvl1_hello" =>
      Some(DialogEntry(HelloText, "lvl1_hello", "laughing"))
    case "lvl1_asleep" =>
      Some(DialogEntry(AsleepText, "lvl1_asleep", "annoyed"))
    case "lvl1_move" =>
      Some(DialogEntry(MoveText, "lvl1_move", "laughing"))
    case "lvl1_jump" =>
      Some(DialogEntry(JumpText, "lvl1_jump", "neutral"))
    case "lvl1_dont_jump_into_water" =>
      Some(DialogEntry(WaterText, "lvl1_dont_jump_into_water", "neutral"))
    case "lvl1_not_the_smartest_circle" =>
      Some(DialogEntry(SmartestText, "lvl1_not_the_smartest_circle", "annoyed"))
    case "lvl1_quick_compared_to_other_circles" =>
      Some(DialogEntry(QuickText, "lvl1_quick_compared_to_other_circles", "happy"))
    case "lvl1_morph" =>
      Some(DialogEntry(MorphText, "lvl1_morph", "neutral"))
    case _ => None
  }

  /** The texts the typewriter shows: the prefixes of length 1 to |text|, in order. */
  function Typed(text: string): (r: seq<string>)
    ensures |r| == |text|
    ensures forall k :: 0 <= k < |r| ==> r[k] == text[..k + 1]
    decreases |text|
  {
    if |text| == 0 then [] else Typed(text[..|text| - 1]) + [text]
  }

  /** Each shown text extends the one before it by exactly one character. */
  lemma TypedGrowsByOne(text: string, k: nat)
    requires 0 < k < |text|
    ensures Typed(text)[k] == Typed(text)[k - 1] + [text[k]]
  {
    var r := Typed(text);
    assert r[k] == text[..k + 1];
    assert r[k - 1] == text[..k];
    assert text[..k + 1] == text[..k] + [text[k]];
  }

  /**
   * The engine effects the dialog system asks for. `StopFreshPlayDialog` is
   * setDialogue's StopCoroutine(PlayDialog()): it is handed a new enumerator
   * that was never started, so it stops nothing, and a PlayDialog already
   * running goes on. `StartPlayDialog` schedules the rest of the new PlayDialog
   * after its first wait.
   */
  datatype Notice = StopAudio | StopFreshPlayDialog | StartPlayDialog | PlayVoice(audio: string)

  /**
   * The static state of the dialog system. The icon is kept as its index into
   * the sprite array.
   */
  class DialogSystem {
    var dialogQueue: seq<string>
    var dialogBoxVisible: bool
    var text: string
    var audioPath: string
    var currentText: string
    var iconIndex: nat

    /** Awake with the static initialisers: an empty queue and hidden box. */
    constructor ()
      ensures dialogQueue == [] && !dialogBoxVisible
      ensures text == "" && audioPath == "" && currentText == "" && iconIndex == 0
    {
      dialogQueue := [];
      dialogBoxVisible := false;
      text, audioPath, currentText := "", "", "";
      iconIndex := 0;
    }

    /** LoadDialog: the name joins the back of the queue. */
    method LoadDialog(name: string)
      modifies this`dialogQueue
      ensures dialogQueue == old(dialogQueue) + [name]
    {
      dialogQueue := dialogQueue + [name];
    }

    /**
     * setDialogue: over a visible dialog the audio is stopped (the running
     * PlayDialog is not), the new settings are stored, and the new PlayDialog
     * runs at once up to its first wait, which shows the box and empties its
     * text. `delay` is that first wait.
     */
    method SetDialogue(t: string, a: string, e: string) returns (notices: seq<Notice>, delay: real)
      modifies this`text, this`audioPath, this`iconIndex, this`dialogBoxVisible, this`currentText
      ensures text == t && audioPath == a && iconIndex == IconIndex(e)
      ensures dialogBoxVisible && currentText == ""
      ensures delay == if old(dialogBoxVisible) then 0.15 else 0.5
      ensures notices == (if old(dialogBoxVisible) then [StopAudio, StopFreshPlayDialog] else []) + [StartPlayDialog]
    {
      notices := [];
      if dialogBoxVisible {
        notices := [StopAudio, StopFreshPlayDialog];
      }
      text := t;
      audioPath := a;
      iconIndex := IconIndex(e);
      delay := PlayDialogOpen();
      notices := notices + [StartPlayDialog];
    }

    /**
     * LoadDialogSettings: the front of the queue is always removed; a known
     * name loads its settings and opens the box, an unknown one changes
     * nothing else.
     */
    method LoadDialogSettings() returns (notices: seq<Notice>)
      requires |dialogQueue| > 0
      modifies this`dialogQueue, this`text, this`audioPath, this`iconIndex, this`dialogBoxVisible, this`currentText
      ensures dialogQueue == old(dialogQueue)[1..]
      ensures var entry := DialogFor(old(dialogQueue)[0]);
              (entry.None? ==> text == old(text) && audioPath == old(audioPath) && iconIndex == old(iconIndex) &&
                               dialogBoxVisible == old(dialogBoxVisible) && currentText == old(currentText) &&
                               notices == []) &&
              (entry.Some? ==> text == entry.value.text && audioPath == entry.value.audio &&
                               iconIndex == IconIndex(entry.value.icon) &&
                               dialogBoxVisible && currentText == "" && StartPlayDialog in notices)
    {
      var name := dialogQueue[0];
      dialogQueue := dialogQueue[1..];
      notices := [];
      var entry := DialogFor(name);
      if entry.Some? {
        var delay;
        notices, delay := SetDialogue(entry.value.text, entry.value.audio, entry.value.icon);
      }
    }

    /** Update: one dialog is taken from the queue only while no dialog is shown. */
    method Update() returns (notices: seq<Notice>)
      modifies this`dialogQueue, this`text, this`audioPath, this`iconIndex, this`dialogBoxVisible, this`currentText
      ensures old(dialogBoxVisible) || old(dialogQueue) == [] ==>
                dialogQueue == old(dialogQueue) && text == old(text) && audioPath == old(audioPath) &&
                iconIndex == old(iconIndex) && dialogBoxVisible == old(dialogBoxVisible) &&
                currentText == old(currentText) && notices == []
      ensures !old(dialogBoxVisible) && old(dialogQueue) != [] ==>
                dialogQueue == old(dialogQueue)[1..] &&
                var entry := DialogFor(old(dialogQueue)[0]);
                (entry.None? ==> text == old(text) && audioPath == old(audioPath) && iconIndex == old(iconIndex) &&
                                 !dialogBoxVisible && currentText == old(currentText) && notices == []) &&
                (entry.Some? ==> text == entry.value.text && audioPath == entry.value.audio &&
                                 iconIndex == IconIndex(entry.value.icon) &&
                                 dialogBoxVisible && currentText == "" && StartPlayDialog in notices)
    {
      notices := [];
      if !dialogBoxVisible && |dialogQueue| > 0 {
        notices := LoadDialogSettings();
      }
    }

    /**
     * Two frames in a row with the box hidden: a known dialog taken in the
     * first frame has opened the box, so the second frame takes nothing and
     * the dialog behind it waits.
     */
    method UpdateTwice() returns (notices: seq<Notice>)
      requires !dialogBoxVisible && |dialogQueue| > 0 && DialogFor(dialogQueue[0]).Some?
      modifies this`dialogQueue, this`text, this`audioPath, this`iconIndex, this`dialogBoxVisible, this`currentText
      ensures dialogQueue == old(dialogQueue)[1..]
      ensures text == DialogFor(old(dialogQueue)[0]).value.text && dialogBoxVisible && currentText == ""
      ensures StartPlayDialog in notices
    {
      notices := Update();
      var second := Update();
      assert second == [];
      notices := notices + second;
    }

    /**
     * First in, first out: a dialog loaded behind waiting ones is not shown
     * before them. With no box visible the front is taken, which is the new
     * name only when nothing was waiting; the names behind keep their order.
     */
    method LoadThenUpdate(name: string) returns (notices: seq<Notice>)
      modifies this`dialogQueue, this`text, this`audioPath, this`iconIndex, this`dialogBoxVisible, this`currentText
      ensures old(dialogBoxVisible) ==>
                dialogQueue == old(dialogQueue) + [name] && text == old(text) &&
                dialogBoxVisible && currentText == old(currentText) && notices == []
      ensures !old(dialogBoxVisible) && old(dialogQueue) == [] ==>
                dialogQueue == [] &&
                (DialogFor(name).Some? ==> text == DialogFor(name).value.text &&
                                           dialogBoxVisible && currentText == "" && StartPlayDialog in notices) &&
                (DialogFor(name).None? ==> !dialogBoxVisible && notices == [])
      ensures !old(dialogBoxVisible) && old(dialogQueue) != [] ==>
                dialogQueue == old(dialogQueue)[1..] + [name] &&
                (DialogFor(old(dialogQueue)[0]).Some? ==> text == DialogFor(old(dialogQueue)[0]).value.text &&
                                                          dialogBoxVisible && currentText == "") &&
                (DialogFor(old(dialogQueue)[0]).None? ==> !dialogBoxVisible)
    {
      LoadDialog(name);
      assert dialogQueue == old(dialogQueue) + [name];
      notices := Update();
    }

    /**
     * PlayDialog up to its first wait: the box is shown and emptied. The wait is
     * shorter when a dialog was already showing.
     */
    method PlayDialogOpen() returns (delay: real)
      modifies this`dialogBoxVisible, this`currentText
      ensures dialogBoxVisible && currentText == ""
      ensures delay == if old(dialogBoxVisible) then 0.15 else 0.5
    {
      var dialogBoxWasVisibleOnStart := dialogBoxVisible;
      dialogBoxVisible := true;
      currentText := "";
      delay := if dialogBoxWasVisibleOnStart then 0.15 else 0.5;
    }

    /**
     * PlayDialog's typewriter: after the voice starts, the prefixes of the text
     * are shown one by one, ending with the whole text.
     */
    method PlayDialogType() returns (notices: seq<Notice>, shown: seq<string>)
      modifies this`currentText
      ensures notices == [PlayVoice(audioPath)]
      ensures shown == Typed(text)
      ensures currentText == (if |text| == 0 then old(currentText) else text)
    {
      notices := [PlayVoice(audioPath)];
      shown := [];
      var current := currentText;
      for i := 1 to |text| + 1
        invariant shown == Typed(text[..i - 1])
        invariant current == if i == 1 then old(currentText) else text[..i - 1]
        modifies {}
      {
        current := text[..i];
        assert text[..i][..i - 1] == text[..i - 1];
        shown := shown + [current];
      }
      assert text[..|text|] == text;
      currentText := current;
    }

    /** The end of PlayDialog: the box is hidden again. */
    method PlayDialogClose()
      modifies this`dialogBoxVisible
      ensures !dialogBoxVisible
    {
      dialogBoxVisible := false;
    }
  }

}
