/** `find_title_by_id` and `find_id_by_title`: a linear search of a list of
    entries, comparing one key of each entry (read with `.get`) against the
    argument and returning another key of the first entry that matches. */
module Util {
  import opened Wrappers
  import opened JsonValue
  import opened Wire
  import opened PyAccess

  /** `entry.get(key)` on a dict: the value, or None when the key is absent. */
  function Field(entry: Json, key: string): Json
  {
    if entry.JObj? && key in entry.fields then entry.fields[key] else JNull
  }

  ghost predicate AllDicts(list: seq<Json>)
  {
    forall i :: 0 <= i < |list| ==> list[i].JObj?
  }

  /** The elements the `for` loop visits when each is then asked for `.get`:
      a list yields its items; the items of a non-empty string or dict are
      strings, which have no `.get` (AttributeError); an empty one yields
      nothing; None, booleans and numbers are not iterable (TypeError). */
  function Entries(list: Json): (r: Result<seq<Json>, Error>)
    ensures list.JArr? ==> r == Ok(list.items)
    ensures r.Ok? && r.value != [] ==> list.JArr?
  {
    match list
    case JArr(a) => Ok(a)
    case JStr(s) => if s == [] then Ok([]) else Err(AttributeError)
    case JObj(m) => if m == map[] then Ok([]) else Err(AttributeError)
    case _ => Err(TypeError)
  }

  /** Some dict of `list` has `want` under `key` and `got` under `other`. */
  ghost predicate HasEntry(list: seq<Json>, key: string, want: Json, other: string, got: Json)
  {
    exists i :: 0 <= i < |list| && list[i].JObj? && Field(list[i], key) == want && Field(list[i], other) == got
  }

  /** The search: the first entry whose `key` equals `want` yields its
      `other`; a non-dict entry met first raises AttributeError; running off
      the end yields None. */
  function FindBy(key: string, want: Json, other: string, list: seq<Json>): (r: Result<Json, Error>)
    ensures r.Err? ==> r.error == AttributeError
    ensures r.Ok? && r.value != JNull ==> HasEntry(list, key, want, other, r.value)
    decreases |list|
  {
    if list == [] then Ok(JNull)
    else match GetOr(list[0], key, JNull)
      case Err(e) => Err(e)
      case Ok(v) => if v == want then GetOr(list[0], other, JNull) else FindBy(key, want, other, list[1..])
  }

  function FindTitleById(id: Json, searchList: Json): (r: Result<Json, Error>)
    ensures r.Ok? && r.value != JNull ==> searchList.JArr? && HasEntry(searchList.items, "id", id, "title", r.value)
  {
    match Entries(searchList)
    case Err(e) => Err(e)
    case Ok(list) => FindBy("id", id, "title", list)
  }

  function FindIdByTitle(title: Json, searchList: Json): (r: Result<Json, Error>)
    ensures r.Ok? && r.value != JNull ==> searchList.JArr? && HasEntry(searchList.items, "title", title, "id", r.value)
  {
    match Entries(searchList)
    case Err(e) => Err(e)
    case Ok(list) => FindBy("title", title, "id", list)
  }

  /** The entry found is the first one that matches, whatever comes after it. */
  lemma {:induction false} FindFirst(key: string, want: Json, other: string, list: seq<Json>, i: nat)
    requires i < |list| && list[i].JObj? && Field(list[i], key) == want
    requires forall j :: 0 <= j < i ==> list[j].JObj? && Field(list[j], key) != want
    ensures FindBy(key, want, other, list) == Ok(Field(list[i], other))
  {
    if i > 0 {
      FindFirst(key, want, other, list[1..], i - 1);
    }
  }

  /** A list of dicts none of which matches yields None. */
  lemma {:induction false} FindNone(key: string, want: Json, other: string, list: seq<Json>)
    requires AllDicts(list)
    requires forall j :: 0 <= j < |list| ==> Field(list[j], key) != want
    ensures FindBy(key, want, other, list) == Ok(JNull)
  {
    if list != [] {
      FindNone(key, want, other, list[1..]);
    }
  }

  /** A non-dict entry reached before any match makes the search raise. */
  lemma {:induction false} FindBlocked(key: string, want: Json, other: string, list: seq<Json>, i: nat)
    requires i < |list| && !list[i].JObj?
    requires forall j :: 0 <= j < i ==> list[j].JObj? && Field(list[j], key) != want
    ensures FindBy(key, want, other, list) == Err(AttributeError)
  {
    if i > 0 {
      FindBlocked(key, want, other, list[1..], i - 1);
    }
  }

  /** In a list of dicts where some entry matches, the result comes from
      the first matching entry. */
  lemma {:induction false} FindSome(key: string, want: Json, other: string, list: seq<Json>) returns (i: nat)
    requires AllDicts(list)
    requires exists k :: 0 <= k < |list| && Field(list[k], key) == want
    ensures i < |list| && Field(list[i], key) == want
    ensures forall j :: 0 <= j < i ==> Field(list[j], key) != want
    ensures FindBy(key, want, other, list) == Ok(Field(list[i], other))
  {
    if Field(list[0], key) == want {
      i := 0;
    } else {
      var k :| 0 <= k < |list| && Field(list[k], key) == want;
      assert 0 <= k - 1 < |list[1..]| && Field(list[1..][k - 1], key) == want;
      var i' := FindSome(key, want, other, list[1..]);
      i := i' + 1;
    }
  }

  /** With unique ids, looking up the id of a present title and then the
      title of that id gives the title back. */
  lemma TitleIdRoundTrip(title: Json, list: seq<Json>)
    requires AllDicts(list)
    requires forall i, j :: 0 <= i < j < |list| ==> Field(list[i], "id") != Field(list[j], "id")
    requires exists k :: 0 <= k < |list| && Field(list[k], "title") == title
    ensures FindIdByTitle(title, JArr(list)).Ok?
    ensures FindTitleById(FindIdByTitle(title, JArr(list)).value, JArr(list)) == Ok(title)
  {
    var i := FindSome("title", title, "id", list);
    FindFirst("id", Field(list[i], "id"), "title", list, i);
  }

  /** Searching for None finds the first entry that lacks the key (or
      holds None there), since `.get` answers None for a missing key. */
  lemma NoneMatchesMissing(key: string, other: string, list: seq<Json>, i: nat)
    requires AllDicts(list) && i < |list| && key !in list[i].fields
    requires forall j :: 0 <= j < i ==> key in list[j].fields && list[j].fields[key] != JNull
    ensures FindBy(key, JNull, other, list) == Ok(Field(list[i], other))
  {
    FindFirst(key, JNull, other, list, i);
  }
}
