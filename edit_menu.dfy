/** The menu editor of src/components/EditMenu.jsx: a menu of themes, each holding items and
    linked event ids, edited in place and protected so that at least one theme stays. */
module EditMenu {
  import opened Common
  import DeleteGuard

  datatype Item = Item(name: string, description: string, price: string, imageId: string)

  /** The keys `updateItem` is called with. */
  datatype ItemField = ItemName | ItemDescription | ItemPrice | ItemImageId

  datatype Theme = Theme(id: string, title: string, description: string,
                         items: seq<Item>, eventIds: seq<string>)

  /** The keys `updateTheme` is called with. */
  datatype ThemeField = ThemeTitle | ThemeDescription

  /** The `name` attributes of the inputs wired to `handleMenuChange`. */
  datatype MenuField = Caption | FooterNote

  datatype Menu = Menu(caption: string, footerNote: string, themes: seq<Theme>)

  const EmptyItem := Item("", "", "", "")

  const IMAGE_UPLOADED := "\U{1F4F8} Image uploaded"
  const IMAGE_FAILED := "\U{274C} Failed to upload image"

  function EmptyTheme(id: string): Theme
  {
    Theme(id, "", "", [], [])
  }

  function ItemGet(it: Item, f: ItemField): string
  {
    match f
    case ItemName => it.name
    case ItemDescription => it.description
    case ItemPrice => it.price
    case ItemImageId => it.imageId
  }

  /** `item[field] = value`. */
  function WithItemField(it: Item, f: ItemField, v: string): (r: Item)
    ensures ItemGet(r, f) == v
    ensures forall g :: g != f ==> ItemGet(r, g) == ItemGet(it, g)
  {
    match f
    case ItemName => it.(name := v)
    case ItemDescription => it.(description := v)
    case ItemPrice => it.(price := v)
    case ItemImageId => it.(imageId := v)
  }

  function ThemeGet(t: Theme, f: ThemeField): string
  {
    match f
    case ThemeTitle => t.title
    case ThemeDescription => t.description
  }

  /** `theme[field] = value`: the other text field, the id, items and event links stay. */
  function WithThemeField(t: Theme, f: ThemeField, v: string): (r: Theme)
    ensures ThemeGet(r, f) == v
    ensures forall g :: g != f ==> ThemeGet(r, g) == ThemeGet(t, g)
    ensures r.id == t.id && r.items == t.items && r.eventIds == t.eventIds
  {
    match f
    case ThemeTitle => t.(title := v)
    case ThemeDescription => t.(description := v)
  }

  function MenuGet(m: Menu, f: MenuField): string
  {
    match f
    case Caption => m.caption
    case FooterNote => m.footerNote
  }

  /** `{ ...menu, [name]: value }`: the themes and the other top-level field stay. */
  function WithMenuField(m: Menu, f: MenuField, v: string): (r: Menu)
    ensures MenuGet(r, f) == v
    ensures forall g :: g != f ==> MenuGet(r, g) == MenuGet(m, g)
    ensures r.themes == m.themes
  {
    match f
    case Caption => m.(caption := v)
    case FooterNote => m.(footerNote := v)
  }

  /** The menu with item `k` of theme `t` replaced by `it`; everything else is as it was. */
  function ReplaceItem(m: Menu, t: nat, k: nat, it: Item): (r: Menu)
    requires t < |m.themes| && k < |m.themes[t].items|
    ensures r.caption == m.caption && r.footerNote == m.footerNote
    ensures |r.themes| == |m.themes|
    ensures forall j :: 0 <= j < |m.themes| && j != t ==> r.themes[j] == m.themes[j]
    ensures r.themes[t].id == m.themes[t].id && r.themes[t].title == m.themes[t].title
    ensures r.themes[t].description == m.themes[t].description
    ensures r.themes[t].eventIds == m.themes[t].eventIds
    ensures |r.themes[t].items| == |m.themes[t].items|
    ensures r.themes[t].items[k] == it
    ensures forall j :: 0 <= j < |m.themes[t].items| && j != k ==> r.themes[t].items[j] == m.themes[t].items[j]
  {
    var theme := m.themes[t];
    m.(themes := m.themes[t := theme.(items := theme.items[k := it])])
  }

  /** Putting back the item that is already there gives the same menu. */
  lemma ReplaceItemOwn(m: Menu, t: nat, k: nat)
    requires t < |m.themes| && k < |m.themes[t].items|
    ensures ReplaceItem(m, t, k, m.themes[t].items[k]) == m
  {
    var r := ReplaceItem(m, t, k, m.themes[t].items[k]);
    assert r.themes[t].items == m.themes[t].items;
    assert r.themes[t] == m.themes[t];
    assert r.themes == m.themes;
  }

  /** Theme `t` exists and holds an item `k`. */
  predicate ItemExists(m: Menu, t: nat, k: nat)
  {
    t < |m.themes| && k < |m.themes[t].items|
  }

  class MenuEditor {
    var menu: Menu
    var effects: seq<Effect>

    /** The editor once the GET of the menu has returned `loaded`. */
    constructor (loaded: Menu)
      ensures menu == loaded && effects == []
    {
      menu := loaded;
      effects := [];
    }

    /** `handleMenuChange`. */
    method HandleMenuChange(name: MenuField, value: string)
      modifies this
      ensures menu == WithMenuField(old(menu), name, value)
      ensures effects == old(effects)
    {
      menu := WithMenuField(menu, name, value);
    }

    /** `addTheme`, with `freshId` standing for `crypto.randomUUID()`. */
    method AddTheme(freshId: string)
      modifies this
      ensures |menu.themes| == |old(menu.themes)| + 1
      ensures menu.themes[..|old(menu.themes)|] == old(menu.themes)
      ensures menu.themes[|old(menu.themes)|] == EmptyTheme(freshId)
      ensures menu.caption == old(menu.caption) && menu.footerNote == old(menu.footerNote)
      ensures effects == old(effects)
    {
      menu := menu.(themes := menu.themes + [EmptyTheme(freshId)]);
    }

    /** `updateTheme(index, field, value)`. */
    method UpdateTheme(index: nat, field: ThemeField, value: string)
      requires index < |menu.themes|
      modifies this
      ensures menu == old(menu).(themes := old(menu.themes)[index := WithThemeField(old(menu.themes[index]), field, value)])
      ensures effects == old(effects)
    {
      menu := menu.(themes := menu.themes[index := WithThemeField(menu.themes[index], field, value)]);
    }

    /** `addItem(themeIndex)`: one empty item at the end of that theme only. */
    method AddItem(themeIndex: nat)
      requires themeIndex < |menu.themes|
      modifies this
      ensures |menu.themes| == |old(menu.themes)|
      ensures forall j :: 0 <= j < |menu.themes| && j != themeIndex ==> menu.themes[j] == old(menu.themes[j])
      ensures menu.themes[themeIndex] == old(menu.themes[themeIndex]).(items := old(menu.themes[themeIndex].items) + [EmptyItem])
      ensures menu.caption == old(menu.caption) && menu.footerNote == old(menu.footerNote)
      ensures effects == old(effects)
    {
      var theme := menu.themes[themeIndex];
      menu := menu.(themes := menu.themes[themeIndex := theme.(items := theme.items + [EmptyItem])]);
    }

    /** `updateItem(themeIndex, itemIndex, field, value)`. */
    method UpdateItem(themeIndex: nat, itemIndex: nat, field: ItemField, value: string)
      requires themeIndex < |menu.themes| && itemIndex < |menu.themes[themeIndex].items|
      modifies this
      ensures menu == ReplaceItem(old(menu), themeIndex, itemIndex,
                                  WithItemField(old(menu.themes[themeIndex].items[itemIndex]), field, value))
      ensures effects == old(effects)
    {
      var theme := menu.themes[themeIndex];
      var item := WithItemField(theme.items[itemIndex], field, value);
      menu := menu.(themes := menu.themes[themeIndex := theme.(items := theme.items[itemIndex := item])]);
    }

    /** `uploadImage(file, themeIndex, itemIndex)`: nothing without a file; otherwise the
        upload's outcome decides between setting that item's `imageId` and a failure toast.
        The assignment runs inside the same `try`, so an item that is not there fails the same
        way as the upload. */
    method UploadImage(file: Option<FileRef>, themeIndex: nat, itemIndex: nat, upload: Upload)
      modifies this
      ensures file.None? ==> menu == old(menu) && effects == old(effects)
      ensures file.Some? && !(upload.Uploaded? && ItemExists(old(menu), themeIndex, itemIndex)) ==>
                menu == old(menu) && effects == old(effects) + [Toast(IMAGE_FAILED)]
      ensures file.Some? && upload.Uploaded? && ItemExists(old(menu), themeIndex, itemIndex) ==>
                menu == ReplaceItem(old(menu), themeIndex, itemIndex,
                                    old(menu.themes[themeIndex].items[itemIndex]).(imageId := upload.id))
                && effects == old(effects) + [Toast(IMAGE_UPLOADED)]
    {
      if file.None? {
        return;
      }
      if upload.UploadFailed? || !ItemExists(menu, themeIndex, itemIndex) {
        effects := effects + [Toast(IMAGE_FAILED)];
        return;
      }
      UpdateItem(themeIndex, itemIndex, ItemImageId, upload.id);
      effects := effects + [Toast(IMAGE_UPLOADED)];
    }

    /** `updateEventLinks(themeIndex, selectedIds)`. */
    method UpdateEventLinks(themeIndex: nat, selectedIds: seq<string>)
      requires themeIndex < |menu.themes|
      modifies this
      ensures menu == old(menu).(themes := old(menu.themes)[themeIndex := old(menu.themes[themeIndex]).(eventIds := selectedIds)])
      ensures effects == old(effects)
    {
      menu := menu.(themes := menu.themes[themeIndex := menu.themes[themeIndex].(eventIds := selectedIds)]);
    }

    /** `deleteItem(themeIndex, itemIndex)`: guarded with a minimum of zero items. */
    method DeleteItem(themeIndex: nat, itemIndex: nat, confirmAnswer: bool) returns (deleteCalled: bool)
      requires themeIndex < |menu.themes|
      modifies this
      ensures deleteCalled <==> 0 < |old(menu.themes[themeIndex].items)| && confirmAnswer
      ensures !deleteCalled ==> menu == old(menu)
      ensures deleteCalled ==>
                menu == old(menu).(themes := old(menu.themes)[themeIndex :=
                          old(menu.themes[themeIndex]).(items := SpliceOut(old(menu.themes[themeIndex].items), itemIndex))])
      ensures effects == old(effects)
                         + DeleteGuard.GuardEffects("menu item", 0, |old(menu.themes[themeIndex].items)|, confirmAnswer)
    {
      var trace;
      deleteCalled, trace := DeleteGuard.ConfirmAndDelete(confirmAnswer, itemLabel := "menu item",
                                                          total := |menu.themes[themeIndex].items|,
                                                          protectIfOnly := 0);
      if deleteCalled {
        var theme := menu.themes[themeIndex];
        menu := menu.(themes := menu.themes[themeIndex := theme.(items := SpliceOut(theme.items, itemIndex))]);
      }
      effects := effects + trace;
    }

    /** `deleteTheme(index)`: guarded with a minimum of one theme. */
    method DeleteTheme(index: nat, confirmAnswer: bool) returns (deleteCalled: bool)
      modifies this
      ensures deleteCalled <==> 1 < |old(menu.themes)| && confirmAnswer
      ensures menu == if deleteCalled then old(menu).(themes := SpliceOut(old(menu.themes), index)) else old(menu)
      ensures 1 <= |old(menu.themes)| ==> 1 <= |menu.themes|
      ensures effects == old(effects) + DeleteGuard.GuardEffects("menu theme", 1, |old(menu.themes)|, confirmAnswer)
    {
      var trace;
      deleteCalled, trace := DeleteGuard.ConfirmAndDelete(confirmAnswer, itemLabel := "menu theme",
                                                          total := |menu.themes|, protectIfOnly := 1);
      if deleteCalled {
        menu := menu.(themes := SpliceOut(menu.themes, index));
      }
      effects := effects + trace;
    }
  }
}
