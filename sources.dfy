/** The source and preset lists the clients assemble from device rows: the
    Max's join of input names with input indices, the Plus/Mini rows with
    the two streaming inputs appended, and the preset simplifications. */
module Sources {
  import opened Wrappers
  import opened JsonValue
  import opened Wire
  import opened PyAccess

  /** Lowercased input titles the Max client hides. */
  const ExcludedMax: seq<string> := ["aes"]

  /** `input["title"].lower()` for one input row. */
  function LowerTitle(row: Json): (r: Result<string, Error>)
    ensures r.Ok? <==> Index(row, "title").Ok? && row.fields["title"].JStr?
    ensures r.Ok? ==> r.value == Lower(row.fields["title"].s)
  {
    match Index(row, "title")
    case Err(e) => Err(e)
    case Ok(t) => StrLower(t)
  }

  /** `{input["title"].lower(): index for index, input in enumerate(inputs)}`,
      evaluated left to right: the first bad row raises, and a later row
      with the same lowered title replaces the earlier index. */
  function IndexMap(rows: seq<Json>): (r: Result<map<string, int>, Error>)
    ensures r.Ok? ==> forall t :: t in r.value ==> 0 <= r.value[t] < |rows|
    decreases |rows|
  {
    if rows == [] then Ok(map[])
    else
      match IndexMap(rows[..|rows| - 1])
      case Err(e) => Err(e)
      case Ok(m) =>
        match LowerTitle(rows[|rows| - 1])
        case Err(e) => Err(e)
        case Ok(t) => Ok(m[t := |rows| - 1])
  }

  /** The map is built exactly when every row has a string title. */
  lemma {:induction false} IndexMapDefined(rows: seq<Json>)
    ensures IndexMap(rows).Ok? <==> forall i :: 0 <= i < |rows| ==> LowerTitle(rows[i]).Ok?
    decreases |rows|
  {
    if rows != [] {
      var init := rows[..|rows| - 1];
      IndexMapDefined(init);
      assert forall i :: 0 <= i < |init| ==> init[i] == rows[i];
    }
  }

  /** Each entry points at a row carrying that lowered title, and at the
      last such row. */
  lemma {:induction false} IndexMapSound(rows: seq<Json>)
    requires IndexMap(rows).Ok?
    ensures forall t :: t in IndexMap(rows).value ==>
      var i := IndexMap(rows).value[t];
      0 <= i < |rows| && LowerTitle(rows[i]) == Ok(t)
      && forall j :: i < j < |rows| ==> LowerTitle(rows[j]) != Ok(t)
    decreases |rows|
  {
    if rows != [] {
      var n := |rows| - 1;
      var init := rows[..n];
      IndexMapSound(init);
      var m := IndexMap(init).value;
      var last := LowerTitle(rows[n]).value;
      assert IndexMap(rows).value == m[last := n];
      forall t | t in IndexMap(rows).value && t != last
        ensures var i := IndexMap(rows).value[t];
          0 <= i < |rows| && LowerTitle(rows[i]) == Ok(t)
          && forall j :: i < j < |rows| ==> LowerTitle(rows[j]) != Ok(t)
      {
        var i := m[t];
        assert rows[i] == init[i];
        forall j | i < j < n ensures LowerTitle(rows[j]) != Ok(t) {
          assert rows[j] == init[j];
        }
      }
    }
  }

  /** Every row's lowered title is a key of the map. */
  lemma {:induction false} IndexMapComplete(rows: seq<Json>)
    requires IndexMap(rows).Ok?
    ensures forall i :: 0 <= i < |rows| ==> LowerTitle(rows[i]).Ok? && LowerTitle(rows[i]).value in IndexMap(rows).value
    decreases |rows|
  {
    if rows != [] {
      var init := rows[..|rows| - 1];
      IndexMapComplete(init);
      assert forall i :: 0 <= i < |init| ==> init[i] == rows[i];
    }
  }

  /** A name the Max client leaves out: its title, lowered, is excluded. */
  ghost predicate Hidden(name: Json)
  {
    name.JObj? && "title" in name.fields && name.fields["title"].JStr?
    && Lower(name.fields["title"].s) in ExcludedMax
  }

  /** `e` is the entry formatted for `name`: its id is the index the name's
      title (as given) has in the map, its title the name's `value.string_`. */
  ghost predicate Formats(name: Json, index: map<string, int>, e: Json)
  {
    && name.JObj? && "title" in name.fields && name.fields["title"].JStr?
    && name.fields["title"].s in index
    && "value" in name.fields && name.fields["value"].JObj? && "string_" in name.fields["value"].fields
    && e == JObj(map["id" := JInt(index[name.fields["title"].s]),
                     "title" := name.fields["value"].fields["string_"]])
  }

  /** The names the Max client keeps, in order. */
  ghost function Kept(names: seq<Json>): seq<Json>
  {
    if names == [] then []
    else (if Hidden(names[0]) then [] else [names[0]]) + Kept(names[1..])
  }

  /** One row of the Max's formatted list, or None for an excluded input:
      the name's title is lowercased for the exclusion test but looked up in
      the index map as given. */
  function JoinEntry(name: Json, index: map<string, int>): (r: Result<Option<Json>, Error>)
    ensures Hidden(name) ==> r == Ok(None)
    ensures r.Ok? && r.value.Some? ==> !Hidden(name) && Formats(name, index, r.value.value)
  {
    match Index(name, "title")
    case Err(e) => Err(e)
    case Ok(t) =>
      match StrLower(t)
      case Err(e) => Err(e)
      case Ok(lt) =>
        if lt in ExcludedMax then Ok(None)
        else if t.s !in index then Err(KeyError(t))
        else
          match Index(name, "value")
          case Err(e) => Err(e)
          case Ok(v) =>
            match Index(v, "string_")
            case Err(e) => Err(e)
            case Ok(title) => Ok(Some(JObj(map["id" := JInt(index[t.s]), "title" := title])))
  }

  /** The `for name in input_names` loop: names are formatted in order and
      the first failing name's exception ends it. */
  function JoinSpec(names: seq<Json>, index: map<string, int>): (r: Result<seq<Json>, Error>)
    ensures r.Ok? ==> |r.value| <= |names|
    ensures r.Err? ==> exists i :: 0 <= i < |names| && JoinEntry(names[i], index).Err?
    decreases |names|
  {
    if names == [] then Ok([])
    else
      match JoinEntry(names[0], index)
      case Err(e) => Err(e)
      case Ok(x) =>
        match JoinSpec(names[1..], index)
        case Err(e) => Err(e)
        case Ok(rest) => Ok(OptionToSeq(x) + rest)
  }

  function OptionToSeq(x: Option<Json>): seq<Json>
  {
    if x.Some? then [x.value] else []
  }

  /** `out` already produced, followed by what the remaining names produce. */
  function After(out: seq<Json>, rest: Result<seq<Json>, Error>): Result<seq<Json>, Error>
  {
    match rest
    case Err(e) => Err(e)
    case Ok(tail) => Ok(out + tail)
  }

  /** One step of `JoinSpec`: the first name's entry, then the rest. */
  lemma JoinUnfold(names: seq<Json>, index: map<string, int>)
    requires names != []
    ensures JoinEntry(names[0], index).Err? ==> JoinSpec(names, index) == Err(JoinEntry(names[0], index).error)
    ensures JoinEntry(names[0], index).Ok? ==>
      JoinSpec(names, index) == After(OptionToSeq(JoinEntry(names[0], index).value), JoinSpec(names[1..], index))
  {
  }

  lemma AfterAppend(out: seq<Json>, x: seq<Json>, rest: Result<seq<Json>, Error>)
    ensures After(out, After(x, rest)) == After(out + x, rest)
  {
    if rest.Ok? {
      assert out + (x + rest.value) == out + x + rest.value;
    }
  }

  /** The formatting loop of the Max client's `get_all_sources`. */
  method JoinSources(names: seq<Json>, index: map<string, int>) returns (r: Result<seq<Json>, Error>)
    ensures r == JoinSpec(names, index)
  {
    var out: seq<Json> := [];
    var i := 0;
    assert names[0..] == names;
    if JoinSpec(names, index).Ok? {
      assert [] + JoinSpec(names, index).value == JoinSpec(names, index).value;
    }
    while i < |names|
      invariant 0 <= i <= |names|
      invariant JoinSpec(names, index) == After(out, JoinSpec(names[i..], index))
    {
      JoinUnfold(names[i..], index);
      assert names[i..][0] == names[i] && names[i..][1..] == names[i + 1..];
      var entry := JoinEntry(names[i], index);
      if entry.Err? {
        return Err(entry.error);
      }
      AfterAppend(out, OptionToSeq(entry.value), JoinSpec(names[i + 1..], index));
      out := out + OptionToSeq(entry.value);
      i := i + 1;
    }
    assert names[i..] == [];
    assert out + [] == out;
    r := Ok(out);
  }

  /** A name whose title is the lowercase of an input's title is joined with
      that input; an uppercase letter in the name's title is never found,
      since the map's keys are lowercased. */
  lemma JoinEntryLooksUpAsGiven(name: Json, index: map<string, int>)
    requires name.JObj? && "title" in name.fields && name.fields["title"].JStr?
    requires Lower(name.fields["title"].s) !in ExcludedMax
    ensures JoinEntry(name, index).Ok? && JoinEntry(name, index).value.Some? ==>
      name.fields["title"].s in index
      && JoinEntry(name, index).value.value.fields["id"] == JInt(index[name.fields["title"].s])
    ensures name.fields["title"].s !in index ==> JoinEntry(name, index) == Err(KeyError(name.fields["title"]))
  {
  }

  /** Every joined entry is a two-field dict whose id comes from the index
      map; excluded names produce none, so the output never outgrows the names. */
  lemma {:induction false} JoinShape(names: seq<Json>, index: map<string, int>)
    requires JoinSpec(names, index).Ok?
    ensures |JoinSpec(names, index).value| <= |names|
    ensures forall k :: 0 <= k < |JoinSpec(names, index).value| ==>
      JoinSpec(names, index).value[k].JObj?
      && JoinSpec(names, index).value[k].fields.Keys == {"id", "title"}
      && JoinSpec(names, index).value[k].fields["id"].JInt?
      && JoinSpec(names, index).value[k].fields["id"].i in index.Values
    decreases |names|
  {
    if names != [] {
      JoinShape(names[1..], index);
    }
  }

  /** The join keeps one entry per name that is not hidden, in name order,
      and nothing for a hidden one; each entry is the one formatted for its
      name. */
  lemma {:induction false} JoinContents(names: seq<Json>, index: map<string, int>)
    requires JoinSpec(names, index).Ok?
    ensures |JoinSpec(names, index).value| == |Kept(names)|
    ensures forall k :: 0 <= k < |Kept(names)| ==> Formats(Kept(names)[k], index, JoinSpec(names, index).value[k])
    decreases |names|
  {
    if names != [] {
      JoinContents(names[1..], index);
      var x := JoinEntry(names[0], index).value;
      var rest := JoinSpec(names[1..], index).value;
      assert JoinSpec(names, index).value == OptionToSeq(x) + rest;
      if !Hidden(names[0]) {
        assert JoinEntry(names[0], index).value.Some?;
      }
    }
  }

  /** "AES", in any case, is dropped from the Max's list without a lookup. */
  lemma JoinDropsAes(index: map<string, int>)
    ensures JoinSpec([JObj(map["title" := JStr("AES")])], index) == Ok([])
  {
    assert Lower("AES") == "aes";
    assert Hidden(JObj(map["title" := JStr("AES")]));
  }

  /** The Max client's whole transformation of the two row lists. */
  function EspressoSources(inputNames: Json, inputs: Json): (r: Result<Json, Error>)
    ensures r.Ok? ==> r.value.JArr? && Elements(Extract(inputNames, ["rows"])).Ok?
                      && |r.value.items| <= |Elements(Extract(inputNames, ["rows"])).value|
    ensures Elements(Extract(inputs, ["rows"])).Err? ==> r == Err(TypeError)
  {
    var names := Extract(inputNames, ["rows"]);
    var rows := Extract(inputs, ["rows"]);
    match Elements(rows)
    case Err(e) => Err(e)
    case Ok(rs) =>
      match IndexMap(rs)
      case Err(e) => Err(e)
      case Ok(index) =>
        match Elements(names)
        case Err(e) => Err(e)
        case Ok(ns) =>
          match JoinSpec(ns, index)
          case Err(e) => Err(e)
          case Ok(out) => Ok(JArr(out))
  }

  /** `e`'s id is the position of the last row of `rs` whose lowered title
      is `name`'s title. */
  ghost predicate RowOf(e: Json, name: Json, rs: seq<Json>)
  {
    && e.JObj? && "id" in e.fields && e.fields["id"].JInt? && 0 <= e.fields["id"].i < |rs|
    && name.JObj? && "title" in name.fields && name.fields["title"].JStr?
    && LowerTitle(rs[e.fields["id"].i]) == Ok(name.fields["title"].s)
    && forall j :: e.fields["id"].i < j < |rs| ==> LowerTitle(rs[j]) != Ok(name.fields["title"].s)
  }

  /** `e`'s title is `name`'s display string `value.string_`. */
  ghost predicate TitledBy(e: Json, name: Json)
  {
    && e.JObj? && "title" in e.fields
    && name.JObj? && "value" in name.fields && name.fields["value"].JObj? && "string_" in name.fields["value"].fields
    && e.fields["title"] == name.fields["value"].fields["string_"]
  }

  /** The Max client's source list has one entry per kept name, in order,
      titled with that name's display string, and its id is the position of
      the last input row whose lowered title is that name's title. */
  lemma EspressoSourceIds(inputNames: Json, inputs: Json)
    requires EspressoSources(inputNames, inputs).Ok?
    ensures EspressoSources(inputNames, inputs).value.JArr?
    ensures var out := EspressoSources(inputNames, inputs).value.items;
            var kept := Kept(Elements(Extract(inputNames, ["rows"])).value);
            var rs := Elements(Extract(inputs, ["rows"])).value;
            |out| == |kept|
            && forall k :: 0 <= k < |out| ==>
                 RowOf(out[k], kept[k], rs) && TitledBy(out[k], kept[k])
  {
    var rs := Elements(Extract(inputs, ["rows"])).value;
    var names := Elements(Extract(inputNames, ["rows"])).value;
    var index := IndexMap(rs).value;
    IndexMapSound(rs);
    JoinContents(names, index);
    var out := JoinSpec(names, index).value;
    var kept := Kept(names);
    forall k | 0 <= k < |out|
      ensures RowOf(out[k], kept[k], rs) && TitledBy(out[k], kept[k])
    {
      assert Formats(kept[k], index, out[k]);
      var t := kept[k].fields["title"].s;
      assert t in index && out[k].fields["id"] == JInt(index[t]);
    }
  }

  /** The two streaming inputs the Plus/Mini client appends to the device's rows. */
  const AdditionalInputs: seq<Json> := [
    JObj(map["id" := JStr("googlecast"), "title" := JStr("Google Cast")]),
    JObj(map["id" := JStr("airplay"), "title" := JStr("AirPlay")])
  ]

  /** `rows.extend(additional_inputs)`: only a list can be extended. */
  function WithAdditionalInputs(rows: Json): (r: Result<Json, Error>)
    ensures r.Ok? <==> rows.JArr?
    ensures r.Ok? ==> r.value.JArr? && |r.value.items| == |rows.items| + 2
    ensures r.Ok? ==> r.value.items[..|rows.items|] == rows.items
    ensures r.Ok? ==> r.value.items[|rows.items|..] == AdditionalInputs
    ensures !rows.JArr? ==> r == Err(AttributeError)
  {
    if rows.JArr? then Ok(JArr(rows.items + AdditionalInputs)) else Err(AttributeError)
  }

  /** `{"title": row['title'], "id": row['value']['popcornAudioPreset']}`. */
  function PresetEntry(row: Json): Result<Json, Error>
  {
    match Index(row, "title")
    case Err(e) => Err(e)
    case Ok(t) =>
      match Index(row, "value")
      case Err(e) => Err(e)
      case Ok(v) =>
        match Index(v, "popcornAudioPreset")
        case Err(e) => Err(e)
        case Ok(id) => Ok(JObj(map["title" := t, "id" := id]))
  }

  /** The preset list comprehension over the rows. */
  function PresetList(rows: seq<Json>): (r: Result<seq<Json>, Error>)
    ensures r.Ok? ==> |r.value| == |rows|
    decreases |rows|
  {
    if rows == [] then Ok([])
    else
      match PresetList(rows[..|rows| - 1])
      case Err(e) => Err(e)
      case Ok(out) =>
        match PresetEntry(rows[|rows| - 1])
        case Err(e) => Err(e)
        case Ok(p) => Ok(out + [p])
  }

  /** The simplification keeps one entry per row, in order, carrying that
      row's title and preset id; it fails exactly when some row lacks them. */
  lemma {:induction false} PresetListSpec(rows: seq<Json>)
    ensures PresetList(rows).Ok? <==> forall i :: 0 <= i < |rows| ==> PresetEntry(rows[i]).Ok?
    ensures PresetList(rows).Ok? ==>
      |PresetList(rows).value| == |rows|
      && forall i :: 0 <= i < |rows| ==>
           PresetList(rows).value[i] == JObj(map["title" := rows[i].fields["title"],
                                                 "id" := rows[i].fields["value"].fields["popcornAudioPreset"]])
    decreases |rows|
  {
    if rows != [] {
      var init := rows[..|rows| - 1];
      PresetListSpec(init);
      assert forall i :: 0 <= i < |init| ==> init[i] == rows[i];
    }
  }

  /** The Plus/Mini preset rows simplified. */
  function PopcornPresets(data: Json): (r: Result<Json, Error>)
    ensures r.Ok? ==> r.value.JArr?
    ensures Extract(data, ["rows"]) == JNull ==> r == Err(TypeError)
  {
    match Elements(Extract(data, ["rows"]))
    case Err(e) => Err(e)
    case Ok(rows) =>
      match PresetList(rows)
      case Err(e) => Err(e)
      case Ok(out) => Ok(JArr(out))
  }

  /** The Max's fixed equaliser presets. */
  function Preset(title: string, id: int): Json
  {
    JObj(map["title" := JStr(title), "id" := JInt(id)])
  }

  const FixedPresets: seq<Json> :=
    [Preset("Neutral", 0), Preset("Movies", 1), Preset("Sport", 2), Preset("News", 3), Preset("Music", 4)]

  /** The fixed presets are numbered by position, so ids and titles are
      unique. */
  lemma FixedPresetsNumbered()
    ensures |FixedPresets| == 5
    ensures forall i :: 0 <= i < 5 ==> FixedPresets[i].fields["id"] == JInt(i)
    ensures forall i, j :: 0 <= i < j < 5 ==> FixedPresets[i].fields["title"] != FixedPresets[j].fields["title"]
  {
  }
}
