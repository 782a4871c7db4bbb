/** The key codes of `keyEnum` (wilo.c:41) and the auto-repeat timing of
    `readKey` (wilo.c:472-494). */
module Keys {

  datatype Key = NoKey | Run | Auto | Up | Down | MenuKey | Enter | Invalid

  /** Ticks (4 ms each) a key must stay held before it is reported again:
      longer before the first repeat than between later ones. */
  function RepeatDelay(first: bool): int
  {
    if first then 200 else 15
  }

  /** The menu level after `key` in `menuProc` (wilo.c:876-963): 0 is the
      status view, 1 browses the parameters, 2 edits one. MENU backs out one
      level and enters browsing from the status view; ENTER edits the browsed
      parameter and commits the edited one. Every other key keeps the level. */
  function MenuAfter(menu: int, key: Key): (m: int)
    requires 0 <= menu <= 2
    ensures 0 <= m <= 2
    // MENU backs out one level, and enters browsing from the status view
    ensures key == MenuKey ==> m == (if menu != 0 then menu - 1 else 1)
    ensures key == Enter && menu != 0 ==> m == 3 - menu
    ensures (key == Enter && menu == 0) || (key != MenuKey && key != Enter) ==> m == menu
  {
    match key
    case MenuKey => if menu != 0 then menu - 1 else menu + 1
    case Enter => if menu == 1 then menu + 1 else if menu == 2 then menu - 1 else menu
    case _ => menu
  }

  /** Pressing ENTER twice inside the menu, or MENU twice outside editing,
      returns to the level it started from. */
  lemma MenuKeysUndo(menu: int)
    requires 0 <= menu <= 2
    ensures MenuAfter(MenuAfter(menu, Enter), Enter) == menu
    ensures menu <= 1 ==> MenuAfter(MenuAfter(menu, MenuKey), MenuKey) == menu
  {
  }
}
