/** The notification indicator: the inline "N new updates" label, and the
    floating indicator's count, visibility and sound preference. */
module NotificationIndicator {
  import opened Wrappers
  import opened Text
  import opened Announcements

  const AudioKey := "notificationAudio"
  const Enabled := "enabled"
  const Disabled := "disabled"

  /** `InlineNewAnnouncementIndicator`: nothing for a count of zero or
      less, otherwise "N new update(s)". */
  function InlineIndicator(count: int): (r: Option<string>)
    ensures r.None? <==> count <= 0
  {
    if count <= 0 then None else Some(NatToString(count) + " new " + Plural("update", count))
  }

  /** The inline label is plural exactly when the count is not 1. */
  lemma InlineIndicatorPlural(count: int)
    requires count > 0
    ensures EndsWith(InlineIndicator(count).value, "updates") <==> count != 1
  {
    var head := NatToString(count) + " new ";
    var s := InlineIndicator(count).value;
    if count != 1 {
      assert s == head + "updates";
      EndsWithAppended(head, "updates");
    } else {
      assert s == head + "update";
      assert s[|s| - 7] == ' ';
    }
  }

  /** The initial sound preference: on unless "disabled" is stored. */
  function AudioFromStorage(stored: Option<string>): (enabled: bool)
    ensures !enabled <==> stored == Some(Disabled)
  {
    stored != Some(Disabled)
  }

  class Indicator {
    var count: int
    var visible: bool
    var audioEnabled: bool
    /** The `notificationAudio` entry of local storage. */
    var storedAudio: Option<string>
    /** Times the notification sound was started. */
    var chimes: nat

    constructor (stored: Option<string>)
      ensures count == 0 && !visible && chimes == 0
      ensures storedAudio == stored && audioEnabled == AudioFromStorage(stored)
    {
      count, visible, chimes := 0, false, 0;
      storedAudio := stored;
      audioEnabled := AudioFromStorage(stored);
    }

    /** `toggleAudio`: the preference flips and is persisted to match. */
    method ToggleAudio()
      modifies this`audioEnabled, this`storedAudio
      ensures audioEnabled == !old(audioEnabled)
      ensures storedAudio == Some(if audioEnabled then Enabled else Disabled)
      ensures AudioFromStorage(storedAudio) == audioEnabled
    {
      audioEnabled := !audioEnabled;
      storedAudio := Some(if audioEnabled then Enabled else Disabled);
    }

    /** The effect on the provider's `newAnnouncements` list, given its length. */
    method OnNewAnnouncementsChanged(length: nat)
      modifies this`count, this`visible, this`chimes
      ensures length > 0 ==> count == length && visible && chimes == old(chimes) + (if audioEnabled then 1 else 0)
      ensures length == 0 ==> !visible && count == old(count) && chimes == old(chimes)
    {
      if length > 0 {
        count, visible := length, true;
        if audioEnabled {
          chimes := chimes + 1;
        }
      } else {
        visible := false;
      }
    }

    /** The `new-announcement-received` listener. */
    method OnAnnouncementEvent(detail: Option<Announcement>)
      modifies this`count, this`visible, this`chimes
      ensures detail.Some? ==> count == old(count) + 1 && visible && chimes == old(chimes) + (if audioEnabled then 1 else 0)
      ensures detail.None? ==> count == old(count) && visible == old(visible) && chimes == old(chimes)
    {
      if detail.Some? {
        count, visible := count + 1, true;
        if audioEnabled {
          chimes := chimes + 1;
        }
      }
    }
  }
}
