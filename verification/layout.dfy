/** The page frame: the collapsible sidebar whose flag survives reloads,
    the collapsible navigation groups, and the compact language and theme
    buttons shown when the sidebar is collapsed. */
module Layout {
  import opened Types
  import opened Language

  // ---------------------------------------------------------------------
  // Theme and language buttons
  // ---------------------------------------------------------------------

  datatype Theme = DefaultTheme | MatrixTheme | RoseTheme

  /** The collapsed sidebar's theme button: default, then matrix, then rose,
      then default again. */
  function NextTheme(t: Theme): (r: Theme)
    ensures r != t
    ensures t == DefaultTheme ==> r == MatrixTheme
    ensures t == MatrixTheme ==> r == RoseTheme
    ensures t == RoseTheme ==> r == DefaultTheme
  {
    if t == DefaultTheme then MatrixTheme else if t == MatrixTheme then RoseTheme else DefaultTheme
  }

  /** Three presses bring back the starting theme, and fewer do not. */
  lemma ThemeCycle(t: Theme)
    ensures NextTheme(NextTheme(NextTheme(t))) == t
    ensures NextTheme(NextTheme(t)) != t
  {
  }

  /** The collapsed sidebar's language button swaps Dutch and English. */
  function SwapLanguage(l: Lang): (r: Lang)
    ensures r != l
  {
    if l == Nl then En else Nl
  }

  /** Two presses bring back the starting language. */
  lemma SwapLanguageTwice(l: Lang)
    ensures SwapLanguage(SwapLanguage(l)) == l
  {
  }

  // ---------------------------------------------------------------------
  // The stored sidebar flag
  // ---------------------------------------------------------------------

  /** `flag.toString()`. */
  function EncodeFlag(b: bool): string {
    if b then "true" else "false"
  }

  /** `saved === 'true'`, where a missing entry is `None`. */
  function DecodeFlag(saved: Option<string>): (b: bool)
    ensures b <==> saved == Some("true")
  {
    saved == Some("true")
  }

  /** The stored flag reads back as itself. */
  lemma FlagRoundTrip(b: bool)
    ensures DecodeFlag(Some(EncodeFlag(b))) == b
  {
  }

  /** The initial flag: the stored one when a window exists, otherwise
      expanded; anything stored but "true" reads as expanded. */
  function InitialCollapsed(hasWindow: bool, saved: Option<string>): (b: bool)
    ensures b ==> hasWindow && saved == Some("true")
    ensures hasWindow && saved == Some(EncodeFlag(true)) ==> b
  {
    if hasWindow then DecodeFlag(saved) else false
  }

  // ---------------------------------------------------------------------
  // Navigation groups
  // ---------------------------------------------------------------------

  /** `collapsedGroups[title]`, where a missing entry is falsy. */
  function GroupCollapsed(groups: map<string, bool>, title: string): bool {
    title in groups && groups[title]
  }

  /** `toggleGroup`: `{...prev, [title]: !prev[title]}`. */
  function ToggledGroups(groups: map<string, bool>, title: string): (r: map<string, bool>)
    ensures GroupCollapsed(r, title) == !GroupCollapsed(groups, title)
    ensures forall other :: other != title ==> GroupCollapsed(r, other) == GroupCollapsed(groups, other)
    ensures r.Keys == groups.Keys + {title}
  {
    groups[title := !GroupCollapsed(groups, title)]
  }

  /** Toggling a group twice restores every group's collapsed state (the
      toggled title keeps an explicit entry). */
  lemma ToggleTwice(groups: map<string, bool>, title: string, other: string)
    ensures GroupCollapsed(ToggledGroups(ToggledGroups(groups, title), title), other) == GroupCollapsed(groups, other)
  {
  }

  /** A group's header button is shown while the sidebar is expanded and
      the group has a (non-empty) title. */
  predicate HeaderShown(sidebarCollapsed: bool, title: string) {
    !sidebarCollapsed && title != ""
  }

  /** A group's items are hidden while the sidebar is expanded and the
      group is collapsed. */
  function ItemsHidden(sidebarCollapsed: bool, groups: map<string, bool>, title: string): (hidden: bool)
    ensures hidden <==> !sidebarCollapsed && GroupCollapsed(groups, title)
  {
    !sidebarCollapsed && GroupCollapsed(groups, title)
  }

  /** A collapsed sidebar shows every group's items, and any hidden group
      with a title has its header button, so it can be opened again. */
  lemma HiddenGroupsCanReopen(sidebarCollapsed: bool, groups: map<string, bool>, title: string)
    ensures sidebarCollapsed ==> !ItemsHidden(sidebarCollapsed, groups, title)
    ensures ItemsHidden(sidebarCollapsed, groups, title) && title != "" ==> HeaderShown(sidebarCollapsed, title)
    ensures ItemsHidden(sidebarCollapsed, groups, title) ==>
      !ItemsHidden(sidebarCollapsed, ToggledGroups(groups, title), title)
  {
  }

  /** Groups are keyed by their translated title: a network group
      collapsed in Dutch shows its items again after a switch to English,
      whose title differs, while the platform group, titled alike in both
      languages, stays collapsed. */
  lemma GroupStateFollowsLanguage()
    ensures var groups := ToggledGroups(ToggledGroups(map[], Translate(Nl, "nav.network")), Translate(Nl, "nav.platform"));
      && ItemsHidden(false, groups, Translate(Nl, "nav.network"))
      && !ItemsHidden(false, groups, Translate(En, "nav.network"))
      && ItemsHidden(false, groups, Translate(En, "nav.platform"))
  {
    GroupTitlesNonEmpty(Nl);
    GroupTitlesNonEmpty(En);
  }

  /** The sidebar's state: the collapsed flag, the browser's stored copy of
      it, and the collapsed groups. */
  class Sidebar {
    var isCollapsed: bool
    var stored: Option<string>
    var collapsedGroups: map<string, bool>

    /** The stored copy always matches the flag (the effect that writes it
        runs after every change). */
    ghost predicate Valid()
      reads this
    {
      stored == Some(EncodeFlag(isCollapsed))
    }

    /** Mounting reads the stored flag, then writes it back. */
    constructor (hasWindow: bool, saved: Option<string>)
      ensures Valid()
      ensures isCollapsed == InitialCollapsed(hasWindow, saved)
      ensures collapsedGroups == map[]
    {
      isCollapsed := InitialCollapsed(hasWindow, saved);
      stored := Some(EncodeFlag(InitialCollapsed(hasWindow, saved)));
      collapsedGroups := map[];
    }

    /** The collapse and expand buttons; the groups are left as they are. */
    method SetCollapsed(b: bool)
      modifies this`isCollapsed, this`stored
      ensures Valid() && isCollapsed == b
    {
      isCollapsed := b;
      stored := Some(EncodeFlag(b));
    }

    method ToggleGroup(title: string)
      modifies this`collapsedGroups
      ensures collapsedGroups == ToggledGroups(old(collapsedGroups), title)
    {
      collapsedGroups := ToggledGroups(collapsedGroups, title);
    }

    /** A reload reads back the flag that was stored. */
    function Reloaded(): (b: bool)
      reads this
      requires Valid()
      ensures b == isCollapsed
    {
      FlagRoundTrip(isCollapsed);
      InitialCollapsed(true, stored)
    }
  }
}
