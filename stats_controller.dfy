/**
 * The statistics details panel: it follows the view's dotted `refName` into the
 * details record and turns what it finds into an ordered list of item configs,
 * one display field per scalar and one container of display fields per object.
 */
module StatsController {
  import opened Optional
  import opened JsValues

  /** The two kinds of item config the controller produces (xtype `displayfield` and `container`). */
  datatype Config =
    | DisplayField(flex: int, labelAlign: string, labelText: string, value: JsValue)
    | Container(flex: int, items: seq<Config>)

  /** `getItemConfig`: a top-labelled display field of flex 1. */
  function ItemConfig(fieldLabel: string, value: JsValue): (c: Config)
    ensures c.DisplayField? && c.flex == 1 && c.labelAlign == "top"
    ensures c.labelText == fieldLabel && c.value == value
  {
    DisplayField(1, "top", fieldLabel, value)
  }

  /** One display field per key, in key order, valued by `item[key]`. */
  function FieldConfigs(item: JsValue, keys: seq<string>): seq<Config>
    requires keys == [] || !Nullish(item)
  {
    if keys == [] then [] else [ItemConfig(keys[0], Get(item, keys[0]))] + FieldConfigs(item, keys[1..])
  }

  /** What `getItemsConfig(item)` returns. */
  function ItemsConfig(item: JsValue): Config {
    Container(1, FieldConfigs(item, OwnKeys(item)))
  }

  /** The config `loadDetails` pushes for the property `fieldLabel` whose value is `item`. */
  function DetailConfig(fieldLabel: string, item: JsValue): Config {
    if TypeOf(item) == "object" then ItemsConfig(item) else ItemConfig(fieldLabel, item)
  }

  /** The configs `loadDetails` pushes for the keys `labels` of `info`, in order. */
  function DetailConfigs(info: JsValue, labels: seq<string>): seq<Config>
    requires labels == [] || !Nullish(info)
  {
    if labels == [] then [] else [DetailConfig(labels[0], Get(info, labels[0]))] + DetailConfigs(info, labels[1..])
  }

  /**
   * Following `refs` from `details`: each step reads one property, and the walk
   * stops at the first falsy value or when the path is used up.
   */
  function Walk(details: JsValue, refs: seq<string>): JsValue
    decreases |refs|
  {
    if refs == [] || !Truthy(details) then details else Walk(Get(details, refs[0]), refs[1..])
  }

  /** How many property reads `Walk` performs. */
  function WalkSteps(details: JsValue, refs: seq<string>): (n: nat)
    ensures n <= |refs|
    ensures n < |refs| ==> !Truthy(Walk(details, refs))
    decreases |refs|
  {
    if refs == [] || !Truthy(details) then 0 else 1 + WalkSteps(Get(details, refs[0]), refs[1..])
  }

  /**
   * What `getGeneralInfo(details)` returns for a view whose `refName` is `refName`.
   * The guard is the truthiness of `refName.indexOf('.')`: -1 (no dot) is truthy,
   * 0 (a leading dot) is falsy.
   */
  function GeneralInfo(details: JsValue, refName: string): JsValue {
    if Truthy(Num(IndexOf(refName, '.'))) then Walk(details, Split(refName, '.')) else details
  }

  /**
   * `getGeneralInfo`: the while loop that advances `details` one path segment
   * at a time; `lookups` counts the property reads it performs.
   */
  method GetGeneralInfo(details: JsValue, refName: string) returns (info: JsValue, ghost lookups: nat)
    ensures info == GeneralInfo(details, refName)
    ensures lookups == if Truthy(Num(IndexOf(refName, '.'))) then WalkSteps(details, Split(refName, '.')) else 0
  {
    info := details;
    lookups := 0;
    if Truthy(Num(IndexOf(refName, '.'))) {
      var refs := Split(refName, '.');
      var index := 0;
      while index < |refs| && Truthy(info)
        invariant 0 <= index <= |refs|
        invariant Walk(info, refs[index..]) == Walk(details, refs)
        invariant lookups + WalkSteps(info, refs[index..]) == WalkSteps(details, refs)
        invariant lookups == index
      {
        assert refs[index..][1..] == refs[index + 1..];
        info := Get(info, refs[index]);
        index := index + 1;
        lookups := lookups + 1;
      }
    }
  }

  /** `getItemsConfig`: the `for ... in` loop that pushes one display field per own key. */
  method GetItemsConfig(item: JsValue) returns (config: Config)
    ensures config == ItemsConfig(item)
  {
    var keys := OwnKeys(item);
    var itemConfigs := [];
    assert keys != [] ==> !Nullish(item);
    for i := 0 to |keys|
      invariant |itemConfigs| == i
      invariant forall j :: 0 <= j < i ==> itemConfigs[j] == ItemConfig(keys[j], Get(item, keys[j]))
    {
      itemConfigs := itemConfigs + [ItemConfig(keys[i], Get(item, keys[i]))];
    }
    FieldConfigsLength(item, keys);
    forall j | 0 <= j < |keys|
      ensures itemConfigs[j] == FieldConfigs(item, keys)[j]
    {
      FieldConfigsAt(item, keys, j);
    }
    config := Container(1, itemConfigs);
  }

  /** The view the controller fills: its `refName`, whether it has a header, its title and its items. */
  class DetailsView {
    const refName: string
    const header: bool
    var title: Option<string>
    var items: seq<Config>

    constructor (refName: string, header: bool)
      ensures this.refName == refName && this.header == header
      ensures title == None && items == []
    {
      this.refName := refName;
      this.header := header;
      title := None;
      items := [];
    }
  }

  /**
   * `loadDetails`: flattens the general info into item configs, sets them as the
   * view's items and, when the view has a header, titles it with its `refName`.
   */
  method LoadDetails(view: DetailsView, details: JsValue)
    modifies view
    ensures view.items == DetailConfigs(GeneralInfo(details, view.refName), OwnKeys(GeneralInfo(details, view.refName)))
    ensures view.title == if view.header then Some(view.refName) else old(view.title)
  {
    var generalInfo;
    ghost var lookups;
    generalInfo, lookups := GetGeneralInfo(details, view.refName);
    var items := CollectItems(generalInfo);
    view.items := items;
    if view.header {
      view.title := Some(view.refName);
    }
  }

  /** The loop of `loadDetails`: one config per own key of the general info, in key order. */
  method CollectItems(generalInfo: JsValue) returns (items: seq<Config>)
    ensures items == DetailConfigs(generalInfo, OwnKeys(generalInfo))
  {
    items := [];
    var labels := OwnKeys(generalInfo);
    assert labels != [] ==> !Nullish(generalInfo);
    for i := 0 to |labels|
      invariant |items| == i
      invariant forall j :: 0 <= j < i ==> items[j] == DetailConfig(labels[j], Get(generalInfo, labels[j]))
    {
      var fieldLabel := labels[i];
      var item := Get(generalInfo, fieldLabel);
      var itemConfig;
      if TypeOf(item) == "object" {
        itemConfig := GetItemsConfig(item);
      } else {
        itemConfig := ItemConfig(fieldLabel, item);
      }
      items := items + [itemConfig];
    }
    DetailConfigsLength(generalInfo, labels);
    forall j | 0 <= j < |labels|
      ensures items[j] == DetailConfigs(generalInfo, labels)[j]
    {
      DetailConfigsAt(generalInfo, labels, j);
    }
  }

  // ---------------------------------------------------------------------------
  // Properties of the item configs

  /** The i-th field config is the top-labelled, flex-1 display field of the i-th key and its value. */
  lemma {:induction false} FieldConfigsAt(item: JsValue, keys: seq<string>, i: nat)
    requires keys == [] || !Nullish(item)
    requires i < |keys|
    ensures |FieldConfigs(item, keys)| == |keys|
    ensures FieldConfigs(item, keys)[i] == DisplayField(1, "top", keys[i], Get(item, keys[i]))
    decreases |keys|
  {
    FieldConfigsLength(item, keys);
    if i > 0 {
      FieldConfigsAt(item, keys[1..], i - 1);
    }
  }

  lemma {:induction false} FieldConfigsLength(item: JsValue, keys: seq<string>)
    requires keys == [] || !Nullish(item)
    ensures |FieldConfigs(item, keys)| == |keys|
    decreases |keys|
  {
    if keys != [] {
      FieldConfigsLength(item, keys[1..]);
    }
  }

  /**
   * `getItemsConfig(item)` is a flex-1 container holding exactly one display
   * field per own key of `item`, in key order.
   */
  lemma ItemsConfigShape(item: JsValue)
    ensures ItemsConfig(item).Container? && ItemsConfig(item).flex == 1
    ensures |ItemsConfig(item).items| == |OwnKeys(item)|
    ensures forall i :: 0 <= i < |OwnKeys(item)| ==>
              ItemsConfig(item).items[i] == DisplayField(1, "top", OwnKeys(item)[i], Get(item, OwnKeys(item)[i]))
  {
    var keys := OwnKeys(item);
    FieldConfigsLength(item, keys);
    forall i | 0 <= i < |keys|
      ensures ItemsConfig(item).items[i] == DisplayField(1, "top", keys[i], Get(item, keys[i]))
    {
      FieldConfigsAt(item, keys, i);
    }
  }

  /** `typeof null` is "object" and `for ... in null` visits nothing: a null value becomes an empty container. */
  lemma NullBecomesEmptyContainer(fieldLabel: string)
    ensures DetailConfig(fieldLabel, Null) == Container(1, [])
  {
  }

  lemma {:induction false} DetailConfigsAt(info: JsValue, labels: seq<string>, i: nat)
    requires labels == [] || !Nullish(info)
    requires i < |labels|
    ensures |DetailConfigs(info, labels)| == |labels|
    ensures DetailConfigs(info, labels)[i] == DetailConfig(labels[i], Get(info, labels[i]))
    decreases |labels|
  {
    DetailConfigsLength(info, labels);
    if i > 0 {
      DetailConfigsAt(info, labels[1..], i - 1);
    }
  }

  lemma {:induction false} DetailConfigsLength(info: JsValue, labels: seq<string>)
    requires labels == [] || !Nullish(info)
    ensures |DetailConfigs(info, labels)| == |labels|
    decreases |labels|
  {
    if labels != [] {
      DetailConfigsLength(info, labels[1..]);
    }
  }

  /**
   * `loadDetails` produces one item per own key of the general info, in order:
   * objects and null become containers (losing their label), every other value
   * a display field labelled by its key.
   */
  lemma Flattening(info: JsValue)
    ensures |DetailConfigs(info, OwnKeys(info))| == |OwnKeys(info)|
    ensures forall i :: 0 <= i < |OwnKeys(info)| ==>
              var v := Get(info, OwnKeys(info)[i]);
              var c := DetailConfigs(info, OwnKeys(info))[i];
              (v.Obj? || v.Null? ==> c == ItemsConfig(v)) &&
              (!v.Obj? && !v.Null? ==> c == DisplayField(1, "top", OwnKeys(info)[i], v))
  {
    var labels := OwnKeys(info);
    DetailConfigsLength(info, labels);
    forall i | 0 <= i < |labels|
      ensures DetailConfigs(info, labels)[i] == DetailConfig(labels[i], Get(info, labels[i]))
    {
      DetailConfigsAt(info, labels, i);
    }
  }

  /**
   * When the general info is a string, `for ... in` visits its character
   * indices: one display field per character, labelled by the index.
   */
  lemma StringInfoFields(s: string)
    ensures |DetailConfigs(Str(s), OwnKeys(Str(s)))| == |s|
    ensures forall i :: 0 <= i < |s| ==>
              DetailConfigs(Str(s), OwnKeys(Str(s)))[i] == DisplayField(1, "top", NatToString(i), Str([s[i]]))
  {
    var labels := OwnKeys(Str(s));
    DetailConfigsLength(Str(s), labels);
    forall i | 0 <= i < |s|
      ensures DetailConfigs(Str(s), labels)[i] == DisplayField(1, "top", NatToString(i), Str([s[i]]))
    {
      DetailConfigsAt(Str(s), labels, i);
      StringIndexGet(s, i);
    }
  }

  /**
   * An object general info yields, in order, the config of each own property
   * and its value, one per property.
   */
  lemma ObjectInfoFields(fields: seq<(string, JsValue)>)
    requires DistinctKeys(Obj(fields))
    ensures |DetailConfigs(Obj(fields), OwnKeys(Obj(fields)))| == |fields|
    ensures forall i :: 0 <= i < |fields| ==>
              DetailConfigs(Obj(fields), OwnKeys(Obj(fields)))[i] == DetailConfig(fields[i].0, fields[i].1)
  {
    var labels := OwnKeys(Obj(fields));
    DetailConfigsLength(Obj(fields), labels);
    forall i | 0 <= i < |fields|
      ensures DetailConfigs(Obj(fields), labels)[i] == DetailConfig(fields[i].0, fields[i].1)
    {
      DetailConfigsAt(Obj(fields), labels, i);
      ObjectFieldGet(fields, i);
    }
  }

  // ---------------------------------------------------------------------------
  // Properties of the path walk

  /** For `refName` "a.b" (a non-empty, neither containing a dot) the general info is `details[a][b]`. */
  lemma TwoSegmentPath(details: JsValue, a: string, b: string)
    requires a != [] && '.' !in a && '.' !in b
    requires Truthy(details) && Truthy(Get(details, a))
    ensures GeneralInfo(details, a + "." + b) == Get(Get(details, a), b)
  {
    SplitTwo(a, b, '.');
    FirstSeparator(a, "." + b, '.');
    assert a + "." + b == a + ("." + b);
    assert Split(a + "." + b, '.') == [a, b];
    assert [a, b][1..] == [b] && [b][1..] == [];
    assert Walk(details, [a, b]) == Walk(Get(details, a), [b]);
    assert Walk(Get(details, a), [b]) == Walk(Get(Get(details, a), b), []);
    assert IndexOf(a + "." + b, '.') == |a|;
    assert Truthy(Num(IndexOf(a + "." + b, '.')));
  }

  /** The walk stops at the first falsy intermediate value and returns it. */
  lemma WalkStopsAtFalsy(details: JsValue, refs: seq<string>)
    requires refs != [] && Truthy(details) && !Truthy(Get(details, refs[0]))
    ensures Walk(details, refs) == Get(details, refs[0])
    ensures WalkSteps(details, refs) == 1
  {
  }

  /** A result that is still truthy means every path segment was read. */
  lemma TruthyResultReadsWholePath(details: JsValue, refs: seq<string>)
    requires Truthy(Walk(details, refs))
    ensures WalkSteps(details, refs) == |refs|
  {
  }

  /** A `refName` without a dot still reads one property: `indexOf` gives -1, which is truthy. */
  lemma NoDotLooksUpOnce(details: JsValue, refName: string)
    requires '.' !in refName && Truthy(details)
    ensures GeneralInfo(details, refName) == Get(details, refName)
  {
    SplitNone(refName, '.');
    assert IndexOf(refName, '.') == -1;
    assert [refName][1..] == [];
    assert Walk(details, [refName]) == Walk(Get(details, refName), []);
  }

  /** A `refName` starting with a dot leaves `details` as it is: `indexOf` gives 0, which is falsy. */
  lemma LeadingDotReturnsDetails(details: JsValue, refName: string)
    requires refName != [] && refName[0] == '.'
    ensures GeneralInfo(details, refName) == details
  {
  }

  /** A dot-free `refName` that names no property of the details object leaves the panel without items. */
  lemma MissingNameGivesNoItems(fields: seq<(string, JsValue)>, refName: string)
    requires '.' !in refName
    requires forall j :: 0 <= j < |fields| ==> fields[j].0 != refName
    ensures GeneralInfo(Obj(fields), refName) == Undefined
    ensures DetailConfigs(GeneralInfo(Obj(fields), refName), OwnKeys(GeneralInfo(Obj(fields), refName))) == []
  {
    NoDotLooksUpOnce(Obj(fields), refName);
    MissingPropertyGet(fields, refName);
  }
}
