/** The floating "new announcements" badge: a counter of badge events since
    the last mount or click, which reloads the dashboard when clicked. */
module AnnouncementBadge {
  import opened Wrappers
  import opened Text
  import opened Announcements
  import Application

  const LabelTail := " - Click to reload"

  /** The badge text: "N new announcement(s) - Click to reload". */
  function Label(count: nat): string {
    NatToString(count) + " new " + Plural("announcement", count) + LabelTail
  }

  /** The label is plural exactly when the count is not 1. */
  lemma LabelPlural(count: nat)
    ensures EndsWith(Label(count), "announcements" + LabelTail) <==> count != 1
  {
    var head := NatToString(count) + " new ";
    if count != 1 {
      assert Label(count) == head + ("announcements" + LabelTail);
      EndsWithAppended(head, "announcements" + LabelTail);
    } else {
      var s := Label(count);
      var suffix := "announcements" + LabelTail;
      assert s == head + "announcement" + LabelTail;
      assert |s| == |head| + 12 + 18;
      // The suffix would have to start on the space before "announcement".
      assert s[|s| - |suffix|] == ' ';
      assert suffix[0] == 'a';
    }
  }

  class Badge {
    var count: nat
    var visible: bool

    /** What the component renders: nothing, or the label. */
    function Rendered(): (r: Option<string>)
      reads this
      ensures r.None? <==> !visible || count == 0
      ensures r.Some? ==> r.value == Label(count)
    {
      if !visible || count == 0 then None else Some(Label(count))
    }

    constructor ()
      ensures count == 0 && !visible
    {
      count, visible := 0, false;
    }

    /** The mount effect: whatever came before, the badge starts empty. */
    method Mount()
      modifies this
      ensures count == 0 && !visible
    {
      count, visible := 0, false;
    }

    /** The `new-announcement-received` listener: an event with a detail
        counts once and shows the badge; one without changes nothing. */
    method OnAnnouncementEvent(detail: Option<Announcement>)
      modifies this
      ensures detail.Some? ==> count == old(count) + 1 && visible
      ensures detail.None? ==> count == old(count) && visible == old(visible)
    {
      if detail.Some? {
        count := count + 1;
        visible := true;
      }
    }

    /** A click reloads through the app once, then hides and resets the badge. */
    method Click(app: Application.App)
      modifies this, app`processedIds, app`reloadTrigger, app`notices
      ensures count == 0 && !visible && Rendered().None?
      ensures app.reloadTrigger == old(app.reloadTrigger) + 1 && app.processedIds == {}
      ensures app.notices == old(app.notices) + [Application.ReloadedNotice]
    {
      app.HandleReloadAnnouncements();
      count, visible := 0, false;
    }
  }
}
