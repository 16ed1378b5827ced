/**
 * The banner that announces the area the player has entered: it shows a
 * name, fades out on a 3 s timer, and refuses to show the same name twice
 * in a row until a 0.5 s timer after the fade forgets the last name.
 */
module AreaNotify {
  import opened Wrappers

  const DefaultDescription: string := "Explore and discover new adventures"

  /** The description shown for each known area name. */
  const Descriptions: map<string, string> := map[
    "Portfolio Crossroads" := "Where all paths meet",
    "About Me Meadow" := "Discover my story and passions",
    "Experience Village" := "Professional journey and skills",
    "Projects Portal" := "Creative works and achievements",
    "Danger Dungeon" := "Adventure awaits the brave"
  ]

  /** `getAreaDescription`: the mapped text, or the default for any other name. */
  function AreaDescription(areaName: string): (d: string)
    ensures areaName in Descriptions ==> d == Descriptions[areaName]
    ensures d == DefaultDescription <==> areaName !in Descriptions
    ensures d != ""
  {
    if areaName in Descriptions then Descriptions[areaName] else DefaultDescription
  }

  /** The five known areas have five different descriptions. */
  lemma DescriptionsAreDistinct(a: string, b: string)
    requires a in Descriptions && b in Descriptions && a != b
    ensures AreaDescription(a) != AreaDescription(b)
  {
  }

  class AreaNotification {
    var isShowing: bool
    var lastShownArea: Option<string>
    var title: string
    var subtitle: string
    /** The 3 s fade callback is scheduled and has not fired or been cleared. */
    var fadePending: bool
    /** 0.5 s callbacks, scheduled by `fadeOut`, that will forget `lastShownArea`; they are never cancelled. */
    var pendingClears: nat

    /** A showing banner always has its fade scheduled. */
    predicate Valid()
      reads this
    {
      isShowing ==> fadePending
    }

    constructor ()
      ensures Valid() && !isShowing && lastShownArea == None
      ensures !fadePending && pendingClears == 0
    {
      isShowing := false;
      lastShownArea := None;
      title, subtitle := "", "";
      fadePending := false;
      pendingClears := 0;
    }

    /**
     * `show`: a name equal to the last one shown changes nothing; any other
     * name is displayed and replaces the pending fade with a fresh one.
     */
    method Show(areaName: string, description: string) returns (shown: bool)
      modifies this
      ensures shown <==> old(lastShownArea) != Some(areaName)
      ensures !shown ==> (isShowing == old(isShowing) && lastShownArea == old(lastShownArea) &&
                          fadePending == old(fadePending) && title == old(title) && subtitle == old(subtitle))
      ensures shown ==> (isShowing && lastShownArea == Some(areaName) && fadePending &&
                         title == areaName && subtitle == description)
      ensures pendingClears == old(pendingClears)
      ensures old(Valid()) ==> Valid()
    {
      if lastShownArea == Some(areaName) {
        return false;
      }
      lastShownArea := Some(areaName);
      fadePending := false;
      title, subtitle := areaName, description;
      isShowing := true;
      fadePending := true;
      return true;
    }

    /** `fadeOut`: nothing when not showing; otherwise stop showing and schedule forgetting the last name. */
    method FadeOut()
      modifies this
      ensures !isShowing
      ensures !old(isShowing) ==> pendingClears == old(pendingClears)
      ensures old(isShowing) ==> pendingClears == old(pendingClears) + 1
      ensures lastShownArea == old(lastShownArea) && fadePending == old(fadePending)
      ensures title == old(title) && subtitle == old(subtitle)
      ensures Valid()
    {
      if !isShowing {
        return;
      }
      isShowing := false;
      pendingClears := pendingClears + 1;
    }

    /** `hide`: cancel the fade and forget the last name, from any state; scheduled clears stay scheduled. */
    method Hide()
      modifies this
      ensures !isShowing && lastShownArea == None && !fadePending
      ensures pendingClears == old(pendingClears)
      ensures title == old(title) && subtitle == old(subtitle)
      ensures Valid()
    {
      fadePending := false;
      isShowing := false;
      lastShownArea := None;
    }

    /** The 3 s callback scheduled by `show` fires and fades the banner out. */
    method FadeTimerFires()
      requires fadePending
      modifies this
      ensures !isShowing && !fadePending
      ensures old(isShowing) ==> pendingClears == old(pendingClears) + 1
      ensures !old(isShowing) ==> pendingClears == old(pendingClears)
      ensures lastShownArea == old(lastShownArea)
      ensures Valid()
    {
      fadePending := false;
      FadeOut();
    }

    /** One 0.5 s callback scheduled by `fadeOut` fires and forgets the last name, whatever it is by now. */
    method ClearTimerFires()
      requires 0 < pendingClears
      modifies this
      ensures lastShownArea == None && pendingClears == old(pendingClears) - 1
      ensures isShowing == old(isShowing) && fadePending == old(fadePending)
      ensures title == old(title) && subtitle == old(subtitle)
      ensures old(Valid()) ==> Valid()
    {
      lastShownArea := None;
      pendingClears := pendingClears - 1;
    }
  }

  /**
   * Duplicate suppression: walking back into the same area is not announced
   * again until the fade has finished and its clear timer has fired.
   */
  method ReentryIsSuppressedUntilCleared() returns (first: bool, again: bool, afterFade: bool, afterClear: bool)
    ensures first && !again && !afterFade && afterClear
  {
    var n := new AreaNotification();
    first := n.Show("About Me Meadow", AreaDescription("About Me Meadow"));
    again := n.Show("About Me Meadow", AreaDescription("About Me Meadow"));
    n.FadeTimerFires();
    afterFade := n.Show("About Me Meadow", AreaDescription("About Me Meadow"));
    n.ClearTimerFires();
    afterClear := n.Show("About Me Meadow", AreaDescription("About Me Meadow"));
  }

  /**
   * A clear scheduled by one fade is not tied to the name that faded: when a
   * second area is shown within the 0.5 s, the old clear forgets the new
   * name, so the banner is showing with no last name and the second area is
   * announced a second time in a row.
   */
  method StaleClearForgetsNewArea() returns (showingWithoutName: bool, announcedTwice: bool)
    ensures showingWithoutName && announcedTwice
  {
    var n := new AreaNotification();
    var _ := n.Show("Portfolio Crossroads", AreaDescription("Portfolio Crossroads"));
    n.FadeTimerFires();
    var _ := n.Show("Experience Village", AreaDescription("Experience Village"));
    n.ClearTimerFires();
    showingWithoutName := n.isShowing && n.lastShownArea == None;
    announcedTwice := n.Show("Experience Village", AreaDescription("Experience Village"));
  }
}
