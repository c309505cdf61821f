/** The persisted theme preference: the selected theme's name and its
    definition, looked up in a fixed list of themes. The list itself (names,
    light/dark types, colour palettes) lives outside this model and is a
    parameter; only a theme's name and type matter here. */
module ThemeStore {
  import opened Common

  datatype ThemeType = Light | Dark

  datatype ThemeDefinition = ThemeDefinition(name: string, kind: ThemeType)

  datatype ThemeState = ThemeState(theme: string, definition: Option<ThemeDefinition>)

  /** Index of the first element satisfying `p`, or `|s|` when there is none. */
  function FindIndex<T>(s: seq<T>, p: T -> bool): (i: nat)
    ensures i <= |s|
    ensures i < |s| ==> p(s[i])
    ensures forall j :: 0 <= j < i ==> !p(s[j])
    decreases |s|
  {
    if s == [] then 0 else if p(s[0]) then 0 else 1 + FindIndex(s[1..], p)
  }

  /** `Array.prototype.find`: the first element satisfying `p`. */
  function Find<T>(s: seq<T>, p: T -> bool): (r: Option<T>)
    ensures r.Some? ==> r.value in s && p(r.value)
    ensures r.Some? ==> exists i :: 0 <= i < |s| && s[i] == r.value && forall j :: 0 <= j < i ==> !p(s[j])
    ensures r.None? ==> forall x :: x in s ==> !p(x)
  {
    var i := FindIndex(s, p);
    if i < |s| then Some(s[i]) else None
  }

  /** The theme list's lookup by name: the first theme with that name. */
  function Lookup(themes: seq<ThemeDefinition>, name: string): (r: Option<ThemeDefinition>)
    ensures r.Some? ==> r.value in themes && r.value.name == name
    ensures r.Some? ==> exists i :: 0 <= i < |themes| && themes[i] == r.value &&
                                    (forall j :: 0 <= j < i ==> themes[j].name != name)
    ensures r.None? <==> forall t :: t in themes ==> t.name != name
  {
    Find(themes, (t: ThemeDefinition) => t.name == name)
  }

  /** The first theme of a given type. */
  function FirstOfType(themes: seq<ThemeDefinition>, k: ThemeType): (r: Option<ThemeDefinition>)
    ensures r.Some? ==> r.value in themes && r.value.kind == k
    ensures r.Some? ==> exists i :: 0 <= i < |themes| && themes[i] == r.value &&
                                    (forall j :: 0 <= j < i ==> themes[j].kind != k)
    ensures r.None? <==> forall t :: t in themes ==> t.kind != k
  {
    Find(themes, (t: ThemeDefinition) => t.kind == k)
  }

  function Opposite(k: ThemeType): (o: ThemeType)
    ensures o != k
  {
    if k == Light then Dark else Light
  }

  /** Theme names are unique in the list. */
  predicate UniqueNames(themes: seq<ThemeDefinition>)
  {
    forall i, j :: 0 <= i < j < |themes| ==> themes[i].name != themes[j].name
  }

  /** The definition is the one the list gives for the selected name. */
  predicate Consistent(themes: seq<ThemeDefinition>, st: ThemeState)
  {
    st.definition == Lookup(themes, st.theme)
  }

  function InitialState(themes: seq<ThemeDefinition>): (st: ThemeState)
    ensures st.theme == "light" && Consistent(themes, st)
  {
    ThemeState("light", Lookup(themes, "light"))
  }

  /** A known name selects that theme with its definition; an unknown one changes nothing. */
  function AfterSetTheme(themes: seq<ThemeDefinition>, st: ThemeState, name: string): (r: ThemeState)
    ensures Lookup(themes, name).Some? ==> r.theme == name && r.definition == Lookup(themes, name) && Consistent(themes, r)
    ensures Lookup(themes, name).None? ==> r == st
  {
    var def := Lookup(themes, name);
    if def.Some? then ThemeState(name, def) else st
  }

  /** The current definition's type, light when there is none. */
  function ThemeTypeOf(st: ThemeState): (k: ThemeType)
    ensures st.definition.None? ==> k == Light
    ensures st.definition.Some? ==> k == st.definition.value.kind
  {
    match st.definition
    case Some(d) => d.kind
    case None => Light
  }

  /** Switch to the first theme, in list order, of the opposite type. */
  function AfterToggleDarkMode(themes: seq<ThemeDefinition>, st: ThemeState): (r: ThemeState)
    ensures st.definition.None? ==> r == st
    ensures st.definition.Some? && FirstOfType(themes, Opposite(st.definition.value.kind)).None? ==> r == st
    ensures st.definition.Some? && FirstOfType(themes, Opposite(st.definition.value.kind)).Some? ==>
              var t := FirstOfType(themes, Opposite(st.definition.value.kind)).value;
              r == ThemeState(t.name, Some(t)) && ThemeTypeOf(r) == Opposite(ThemeTypeOf(st))
  {
    match st.definition
    case None => st
    case Some(d) =>
      match FirstOfType(themes, Opposite(d.kind))
      case Some(t) => ThemeState(t.name, Some(t))
      case None => st
  }

  /** Toggling twice lands on the first theme of the original type, which
      need not be the theme one started from. */
  lemma ToggleTwice(themes: seq<ThemeDefinition>, st: ThemeState)
    requires st.definition.Some? && st.definition.value in themes
    requires FirstOfType(themes, Opposite(st.definition.value.kind)).Some?
    ensures AfterToggleDarkMode(themes, AfterToggleDarkMode(themes, st))
            == ThemeState(FirstOfType(themes, st.definition.value.kind).value.name,
                          FirstOfType(themes, st.definition.value.kind))
  {
    var k := st.definition.value.kind;
    assert Opposite(Opposite(k)) == k;
    assert FirstOfType(themes, k).Some?;
  }

  /** With unique names, toggling keeps name and definition paired. */
  lemma ToggleKeepsConsistent(themes: seq<ThemeDefinition>, st: ThemeState)
    requires UniqueNames(themes)
    ensures AfterToggleDarkMode(themes, st) == st || Consistent(themes, AfterToggleDarkMode(themes, st))
  {
    var r := AfterToggleDarkMode(themes, st);
    if r != st {
      var t := r.definition.value;
      var i := FindIndex(themes, (x: ThemeDefinition) => x.kind == Opposite(st.definition.value.kind));
      assert themes[i] == t;
      var j := FindIndex(themes, (x: ThemeDefinition) => x.name == t.name);
      assert j <= i;
      assert j == i;
    }
  }

  /** Only the name is stored. */
  function Partialize(st: ThemeState): (stored: string)
    ensures stored == st.theme
  {
    st.theme
  }

  /** The definition is not stored: states that differ only in it store the same. */
  lemma PartializeForgetsDefinition(st: ThemeState, d: Option<ThemeDefinition>)
    ensures Partialize(st.(definition := d)) == Partialize(st)
  {
  }

  /** A restart: the stored name is merged over the initial state, and the
      definition is recomputed only when the name is non-empty and known. */
  function Rehydrate(themes: seq<ThemeDefinition>, stored: string): (r: ThemeState)
    ensures r.theme == stored
    ensures stored != "" && Lookup(themes, stored).Some? ==> r.definition == Lookup(themes, stored)
    ensures (stored == "" || Lookup(themes, stored).None?) ==> r.definition == InitialState(themes).definition
  {
    var merged := InitialState(themes).(theme := stored);
    if stored != "" && Lookup(themes, stored).Some? then merged.(definition := Lookup(themes, stored)) else merged
  }

  /** Persisting then reloading restores a consistent, selected theme. */
  lemma PersistRoundTrip(themes: seq<ThemeDefinition>, st: ThemeState)
    requires Consistent(themes, st) && st.definition.Some? && st.theme != ""
    ensures Rehydrate(themes, Partialize(st)) == st
  {
  }

  /** A name that has vanished from the list is kept while the definition
      stays the initial one, so the two disagree after the restart. */
  lemma RehydrateUnknownName(themes: seq<ThemeDefinition>, stored: string)
    requires stored != "light" && Lookup(themes, stored).None? && Lookup(themes, "light").Some?
    ensures !Consistent(themes, Rehydrate(themes, stored))
  {
  }

  class Store {
    const themes: seq<ThemeDefinition>
    var theme: string
    var themeDefinition: Option<ThemeDefinition>

    function State(): ThemeState
      reads this
    {
      ThemeState(theme, themeDefinition)
    }

    constructor (themes: seq<ThemeDefinition>)
      ensures this.themes == themes && State() == InitialState(themes)
    {
      this.themes := themes;
      theme := "light";
      themeDefinition := Lookup(themes, "light");
    }

    /** The store as rebuilt from a stored theme name. */
    constructor Rehydrated(themes: seq<ThemeDefinition>, stored: string)
      ensures this.themes == themes && State() == Rehydrate(themes, stored)
    {
      this.themes := themes;
      theme := stored;
      themeDefinition := Lookup(themes, "light");
      if stored != "" {
        var def := Lookup(themes, stored);
        if def.Some? {
          themeDefinition := def;
        }
      }
    }

    method SetTheme(name: string)
      modifies this
      ensures State() == AfterSetTheme(themes, old(State()), name)
    {
      var def := Lookup(themes, name);
      if def.Some? {
        theme, themeDefinition := name, def;
      }
    }

    function GetThemeType(): (k: ThemeType)
      reads this
      ensures themeDefinition.None? ==> k == Light
      ensures themeDefinition.Some? ==> k == themeDefinition.value.kind
    {
      ThemeTypeOf(State())
    }

    method ToggleDarkMode()
      modifies this
      ensures State() == AfterToggleDarkMode(themes, old(State()))
    {
      if themeDefinition.None? {
        return;
      }
      var target := Opposite(themeDefinition.value.kind);
      var found := FirstOfType(themes, target);
      if found.Some? {
        theme, themeDefinition := found.value.name, found;
      }
    }

    /** What storage receives; a reload from it restores a consistent,
        selected theme. */
    function Persist(): (stored: string)
      reads this
      ensures stored == theme
      ensures Consistent(themes, State()) && themeDefinition.Some? && theme != "" ==>
                Rehydrate(themes, stored) == State()
    {
      Partialize(State())
    }
  }
}
