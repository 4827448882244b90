/**
  `ui/json-editor-mount.tsx`: the theme lookup and read-only restrictions handed to the
  external tree editor, and the handle returned by `mountJsonEditor` (`updateData`,
  `destroy`) together with the edit forwarding of its wrapper component. React rendering is
  reduced to the state the handle and the wrapper keep.
 */
module JsonEditorMount {
  import opened Optional
  import Codec

  datatype Theme = GithubDark | GithubLight | MonoDark | MonoLight

  /** The own entries of the theme map. */
  function ThemeEntry(name: string): (t: Option<Theme>)
    ensures t.Some? <==> name in {"githubDark", "githubLight", "monoDark", "monoLight"}
  {
    if name == "githubDark" then Some(GithubDark)
    else if name == "githubLight" then Some(GithubLight)
    else if name == "monoDark" then Some(MonoDark)
    else if name == "monoLight" then Some(MonoLight)
    else None
  }

  /** The theme the editor is given: the map's own entry, else the GitHub dark theme. */
  function ResolveTheme(name: string): (t: Theme)
    ensures name == "githubDark" ==> t == GithubDark
    ensures name == "githubLight" ==> t == GithubLight
    ensures name == "monoDark" ==> t == MonoDark
    ensures name == "monoLight" ==> t == MonoLight
    ensures name !in {"githubDark", "githubLight", "monoDark", "monoLight"} ==> t == GithubDark
  {
    ThemeEntry(name).GetOr(GithubDark)
  }

  // ---------------------------------------------------------------------------------------
  // The lookup as written: indexing an object literal also finds inherited members

  /** Names every plain object inherits from `Object.prototype`; none of them is nullish. */
  const InheritedNames: set<string> := {
    "constructor", "hasOwnProperty", "isPrototypeOf", "propertyIsEnumerable",
    "toLocaleString", "toString", "valueOf", "__proto__",
    "__defineGetter__", "__defineSetter__", "__lookupGetter__", "__lookupSetter__"
  }

  /** What `themeMap[theme] ?? githubDarkTheme` yields: a theme object, or an inherited
      member of `Object.prototype` that `??` does not replace. */
  datatype ThemeValue = ThemeObject(theme: Theme) | InheritedMember(name: string)

  function ResolveThemeAsWritten(name: string): (v: ThemeValue)
    ensures name !in InheritedNames ==> v == ThemeObject(ResolveTheme(name))
    ensures name in InheritedNames ==> v == InheritedMember(name)
  {
    if ThemeEntry(name).Some? then ThemeObject(ThemeEntry(name).value)
    else if name in InheritedNames then InheritedMember(name)
    else ThemeObject(GithubDark)
  }

  /** The lookup as written does not fall back for the theme name "toString", which names no
      theme, while the intended lookup does. */
  lemma InheritedNameEscapesFallback()
    ensures "toString" !in {"githubDark", "githubLight", "monoDark", "monoLight"}
    ensures ResolveThemeAsWritten("toString") == InheritedMember("toString")
    ensures ResolveThemeAsWritten("toString") != ThemeObject(GithubDark)
    ensures ResolveTheme("toString") == GithubDark
  {
    assert "toString" in InheritedNames;
  }

  // ---------------------------------------------------------------------------------------
  // Read-only restrictions

  /** The restriction props: `restrictTypeSelection` is `true` or left undefined (`None`). */
  datatype Restrictions = Restrictions(edit: bool, delete: bool, add: bool, typeSelection: Option<bool>)

  function RestrictionsFor(readOnly: bool): (r: Restrictions)
    ensures r.edit == readOnly && r.delete == readOnly && r.add == readOnly
    ensures r.typeSelection.Some? <==> readOnly
    ensures r.typeSelection.Some? ==> r.typeSelection.value
  {
    Restrictions(readOnly, readOnly, readOnly, if readOnly then Some(true) else None)
  }

  /** A read-only editor restricts every edit affordance; a writable one restricts none. */
  lemma ReadOnlyRestrictsAll(readOnly: bool)
    ensures readOnly <==> RestrictionsFor(readOnly) == Restrictions(true, true, true, Some(true))
    ensures !readOnly <==> RestrictionsFor(readOnly) == Restrictions(false, false, false, None)
  {
  }

  // ---------------------------------------------------------------------------------------
  // The handle

  /** One mounted editor: whether its React root is still mounted, whether the wrapper has
      registered its updater (a React effect, run after the first commit), the data the
      wrapper holds (`None` is `undefined`), and its fixed props. */
  datatype Editor = Editor(
    mounted: bool,
    updater: bool,
    data: Option<Codec.Json>,
    readOnly: bool,
    themeName: string,
    rootName: string)

  /** `mountJsonEditor`: a mounted root rendering `initial`, no updater yet. */
  function Mount(initial: Codec.Json, readOnly: bool, themeName: string, rootName: string): (e: Editor)
    ensures e.mounted && !e.updater && e.data == Some(initial)
    ensures e.readOnly == readOnly && e.themeName == themeName && e.rootName == rootName
  {
    Editor(true, false, Some(initial), readOnly, themeName, rootName)
  }

  /** The wrapper's effect registers the updater; effects only run while mounted. */
  function RegisterUpdater(e: Editor): (r: Editor)
    ensures r.updater <==> e.updater || e.mounted
    ensures r.(updater := e.updater) == e
  {
    if e.mounted then e.(updater := true) else e
  }

  /** `updateData`: nothing before the updater is registered (and a state update on an
      unmounted component is ignored); otherwise the displayed data is replaced. */
  function UpdateData(e: Editor, d: Option<Codec.Json>): (r: Editor)
    ensures !e.updater || !e.mounted ==> r == e
    ensures e.updater && e.mounted ==> r.data == d
    ensures r.(data := e.data) == e
  {
    if e.updater && e.mounted then e.(data := d) else e
  }

  /** The outcome of a user edit: the editor afterwards and the values passed to `onEdit`. */
  datatype Edited = Edited(editor: Editor, forwarded: seq<Codec.Json>)

  /** `handleEdit`: the wrapper takes the edited value as its data and forwards exactly that
      value to `onEdit`, once. */
  function Edit(e: Editor, d: Codec.Json): (r: Edited)
    ensures r.editor.data == Some(d)
    ensures r.forwarded == [d]
    ensures r.editor.(data := e.data) == e
  {
    Edited(e.(data := Some(d)), [d])
  }

  /** The outcome of `destroy`: the editor afterwards and whether the root was unmounted. */
  datatype Unmounted = Unmounted(editor: Editor, unmounted: bool)

  function Destroy(e: Editor): (r: Unmounted)
    ensures !r.editor.mounted
    ensures r.unmounted <==> e.mounted
    ensures r.editor.(mounted := e.mounted) == e
  {
    Unmounted(e.(mounted := false), e.mounted)
  }

  /** The root is unmounted at most once: a second `destroy` does nothing. */
  lemma DestroyIdempotent(e: Editor)
    ensures !Destroy(Destroy(e).editor).unmounted
    ensures Destroy(Destroy(e).editor).editor == Destroy(e).editor
  {
  }

  function UpdateAll(e: Editor, ds: seq<Option<Codec.Json>>): Editor
    decreases |ds|
  {
    if |ds| == 0 then e else UpdateAll(UpdateData(e, ds[0]), ds[1..])
  }

  /** Updates before the updater is registered are all lost; once it is registered (and the
      root is mounted) the last update is what the editor shows. */
  lemma {:induction false} UpdatesAfterRegistration(e: Editor, ds: seq<Option<Codec.Json>>)
    ensures !e.updater ==> UpdateAll(e, ds) == e
    ensures e.updater && e.mounted && |ds| > 0 ==> UpdateAll(e, ds).data == ds[|ds| - 1]
    decreases |ds|
  {
    if |ds| > 0 {
      UpdatesAfterRegistration(UpdateData(e, ds[0]), ds[1..]);
      if |ds| > 1 {
        assert ds[1..][|ds[1..]| - 1] == ds[|ds| - 1];
      }
    }
  }

  /** What the tree editor is rendered with: the theme is whatever the lookup as written
      yields, inherited `Object.prototype` members included. */
  datatype EditorProps = EditorProps(
    data: Option<Codec.Json>, rootName: string, theme: ThemeValue, restrictions: Restrictions)

  function Props(e: Editor): EditorProps {
    EditorProps(e.data, e.rootName, ResolveThemeAsWritten(e.themeName), RestrictionsFor(e.readOnly))
  }
}
