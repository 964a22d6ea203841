/** The category icon (`components/CategoryIcon.tsx`): a fixed table from
    lowercase names to icons, looked up with the lowercased `iconName`, with
    the `default` entry as fallback; plus the default class and color. */
module CategoryIcon {
  import opened Common

  datatype Icon = Cube | Film | Scissors | ArchiveBox | HandRaised | ShieldCheck
                | WrenchScrewdriver | PaintBrush | Bolt | Beaker

  /** `iconMap`. */
  const IconMap: map<string, Icon> := map[
    "strapping" := Cube, "stretch-film" := Film, "tape" := Scissors, "packaging" := ArchiveBox,
    "gloves" := HandRaised, "safety" := ShieldCheck, "tools" := WrenchScrewdriver,
    "paint" := PaintBrush, "electrical" := Bolt, "chemicals" := Beaker, "default" := Cube]

  /** The names every plain JavaScript object answers through its prototype
      and that are all lowercase, so that a lowercased key can reach them. */
  const PrototypeNames: set<string> := {"constructor", "__proto__"}

  /** What `iconMap[key]` yields in the code as written: an entry of the
      table, a truthy value inherited from `Object.prototype`, or nothing. */
  datatype Found = Entry(icon: Icon) | Inherited(name: string)

  function IndexAsWritten(key: string): (r: Option<Found>)
    ensures key in IconMap ==> r == Some(Entry(IconMap[key]))
    ensures key !in IconMap ==> (r.Some? <==> key in PrototypeNames)
  {
    if key in IconMap then Some(Entry(IconMap[key]))
    else if key in PrototypeNames then Some(Inherited(key))
    else None
  }

  /** The component chosen, as written: the indexed value when `iconName`
      is truthy and the index yields something, else the default entry. */
  function ComponentAsWritten(iconName: Option<string>): Found {
    if StrTruthy(iconName) && IndexAsWritten(ToLower(iconName.value)).Some? then IndexAsWritten(ToLower(iconName.value)).value
    else Entry(IconMap["default"])
  }

  /** Any icon name that lowers to a prototype name picks that inherited
      member (`Object` for `constructor`, `Object.prototype` for `__proto__`)
      instead of an icon, and neither is a component the page can render. */
  lemma PrototypeNamesAreInherited(name: string)
    requires ToLower(name) in PrototypeNames
    ensures ComponentAsWritten(Some(name)) == Inherited(ToLower(name))
  {
    assert "constructor" !in IconMap && "__proto__" !in IconMap;
  }

  /** The icon name `constructor` is one such name. */
  lemma PrototypeNameIsNotAnIcon()
    ensures ComponentAsWritten(Some("constructor")) == Inherited("constructor")
  {
    ToLowerKeeps("constructor");
    assert "constructor" !in IconMap;
  }

  /** The lookup the table is meant for: own entries only, so every name
      picks an icon. */
  function IconFor(iconName: Option<string>): (icon: Icon)
    ensures !StrTruthy(iconName) ==> icon == Cube
    ensures StrTruthy(iconName) && ToLower(iconName.value) in IconMap ==> icon == IconMap[ToLower(iconName.value)]
    ensures StrTruthy(iconName) && ToLower(iconName.value) !in IconMap ==> icon == IconMap["default"]
  {
    if StrTruthy(iconName) && ToLower(iconName.value) in IconMap then IconMap[ToLower(iconName.value)]
    else IconMap["default"]
  }

  /** Outside the two prototype names the code as written picks the same icon. */
  lemma AsWrittenAgreesElsewhere(iconName: Option<string>)
    requires !(StrTruthy(iconName) && ToLower(iconName.value) in PrototypeNames)
    ensures ComponentAsWritten(iconName) == Entry(IconFor(iconName))
  {
  }

  /** Case does not matter: a name and its lowercase pick the same icon. */
  lemma IconForIgnoresCase(name: string)
    ensures IconFor(Some(name)) == IconFor(Some(ToLower(name)))
  {
    ToLowerIdempotent(name);
    if name != [] {
      assert ToLower(name) != [] by {
        assert |LowerOne(name[0])| >= 1;
      }
    }
  }

  /** The wrapper's class and the icon's color: `className` defaults to
      `w-12 h-12` only when it is not given, the color to `#1f2937` when it is
      missing or empty. */
  datatype Style = Style(className: string, color: string)

  function StyleFor(className: Option<string>, color: Option<string>): (s: Style)
    ensures className.None? ==> s.className == "w-12 h-12"
    ensures className.Some? ==> s.className == className.value
    ensures StrTruthy(color) ==> s.color == color.value
    ensures !StrTruthy(color) ==> s.color == "#1f2937"
  {
    Style(if className.Some? then className.value else "w-12 h-12", StrOr(color, "#1f2937"))
  }
}
