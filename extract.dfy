/** The six helpers of transform.py that flatten one raw record's nested fields
    (transform.py:5-35). On records shaped as the movie API returns them they
    never fail; on malformed ones each raises what the Python code raises. */
module Extract {
  import opened Frame
  import opened Text

  /** extract_cast keeps the first ten cast entries. */
  const CastLimit: nat := 10

  /** The guard `isinstance(credits, dict) and key in credits`. */
  predicate Holds(credits: Value, key: string) {
    credits.Dict? && key in credits.fields
  }

  /** `p["name"]` on one cast or crew entry. */
  function NameField(p: Value): Result<Value> {
    if !p.Dict? then Err(TypeError)
    else if "name" in p.fields then Ok(p.fields["name"])
    else Err(KeyError("name"))
  }

  /** `v.get("name", "")` on one element of a list-of-mappings column. */
  function NameOrEmpty(v: Value): Result<Value> {
    if !v.Dict? then Err(AttributeError)
    else if "name" in v.fields then Ok(v.fields["name"])
    else Ok(Str(""))
  }

  /** `[f(x) for x in xs]`: the first exception aborts the comprehension. */
  function MapAll(xs: seq<Value>, f: Value -> Result<Value>): (r: Result<seq<Value>>)
    ensures r.Ok? <==> forall i :: 0 <= i < |xs| ==> f(xs[i]).Ok?
    ensures r.Ok? ==> |r.value| == |xs| && forall i :: 0 <= i < |xs| ==> f(xs[i]) == Ok(r.value[i])
  {
    if xs == [] then Ok([])
    else
      var y :- f(xs[0]);
      var ys :- MapAll(xs[1..], f);
      Ok([y] + ys)
  }

  predicate AllStrings(vs: seq<Value>) {
    forall i :: 0 <= i < |vs| ==> vs[i].Str?
  }

  function Strings(vs: seq<Value>): seq<string>
    requires AllStrings(vs)
  {
    seq(|vs|, i requires 0 <= i < |vs| => vs[i].s)
  }

  /** `"|".join(vs)`: a TypeError unless every item is a string. */
  function JoinValues(vs: seq<Value>): Result<Value> {
    if AllStrings(vs) then Ok(Str(Join(Strings(vs)))) else Err(TypeError)
  }

  /** What `for p in v[:n]` visits: a list's first n items, or a string's first n
      characters, each a one-character string; slicing anything else raises. */
  function Head(v: Value, n: nat): Result<seq<Value>> {
    match v
    case List(items) => Ok(if |items| <= n then items else items[..n])
    case Str(s) =>
      var t := if |s| <= n then s else s[..n];
      Ok(seq(|t|, i requires 0 <= i < |t| => Str([t[i]])))
    case _ => Err(TypeError)
  }

  /** `len(v)`: lists, strings and mappings have a length; anything else raises. */
  function Length(v: Value): Result<Value> {
    match v
    case List(items) => Ok(Num(|items| as real))
    case Str(s) => Ok(Num(|s| as real))
    case Dict(fields) => Ok(Num(|fields| as real))
    case _ => Err(TypeError)
  }

  /** A cast entry extract_cast can read: a mapping whose `name` is a string. */
  predicate NamedCastEntry(p: Value) {
    p.Dict? && "name" in p.fields && p.fields["name"].Str?
  }

  /** extract_cast (transform.py:5-8). It raises exactly when the cast cannot be sliced,
      or one of the first ten entries is not a mapping with a string `name`; a cast
      string is sliced into characters, so only the empty string is read without error. */
  function ExtractCast(credits: Value): (r: Result<Value>)
    ensures !Holds(credits, "cast") ==> r == Ok(Missing)
    ensures r.Ok? && Holds(credits, "cast") ==> r.value.Str?
    ensures Holds(credits, "cast") && credits.fields["cast"].List? ==>
      (r.Ok? <==> forall i :: 0 <= i < |credits.fields["cast"].items| && i < CastLimit ==>
        NamedCastEntry(credits.fields["cast"].items[i]))
    ensures Holds(credits, "cast") && credits.fields["cast"].Str? ==> (r.Ok? <==> credits.fields["cast"].s == "")
    ensures Holds(credits, "cast") && !credits.fields["cast"].List? && !credits.fields["cast"].Str? ==>
      r == Err(TypeError)
  {
    if Holds(credits, "cast") then
      CastReadable(credits.fields["cast"]);
      var entries :- Head(credits.fields["cast"], CastLimit);
      var names :- MapAll(entries, NameField);
      JoinValues(names)
    else
      Ok(Missing)
  }

  /** A cast list is read and joined without error iff each of its first ten entries is a
      mapping with a string `name`. */
  lemma CastReadable(cast: Value)
    ensures cast.List? ==>
      var values := MapAll(Head(cast, CastLimit).value, NameField);
      (values.Ok? && JoinValues(values.value).Ok?) <==>
        forall i :: 0 <= i < |cast.items| && i < CastLimit ==> NamedCastEntry(cast.items[i])
  {
    if cast.List? {
      var entries := Head(cast, CastLimit).value;
      assert forall i :: 0 <= i < |entries| ==> entries[i] == cast.items[i];
      var values := MapAll(entries, NameField);
      if values.Ok? {
        assert forall i :: 0 <= i < |entries| ==> (values.value[i].Str? <==> NamedCastEntry(entries[i]));
      }
    }
  }

  /** The job test of extract_director: `p.get("job") == "Director"`. */
  predicate IsDirector(p: Value) {
    p.Dict? && "job" in p.fields && p.fields["job"] == Str("Director")
  }

  /** Every crew entry before index k is a mapping whose job is not "Director". */
  predicate NoDirectorBefore(crew: seq<Value>, k: nat)
    requires k <= |crew|
  {
    forall j :: 0 <= j < k ==> crew[j].Dict? && !IsDirector(crew[j])
  }

  /** The loop of extract_director over a crew list (transform.py:12-14). */
  function FirstDirector(crew: seq<Value>): (r: Result<Value>)
    ensures NoDirectorBefore(crew, |crew|) ==> r == Ok(Missing)
    ensures forall k :: 0 <= k < |crew| && NoDirectorBefore(crew, k) && IsDirector(crew[k]) ==>
      r == NameField(crew[k])
    ensures forall k :: 0 <= k < |crew| && NoDirectorBefore(crew, k) && !crew[k].Dict? ==>
      r == Err(AttributeError)
  {
    if crew == [] then Ok(Missing)
    else if !crew[0].Dict? then Err(AttributeError)
    else if IsDirector(crew[0]) then NameField(crew[0])
    else
      assert forall k :: 0 < k <= |crew| && NoDirectorBefore(crew, k) ==> NoDirectorBefore(crew[1..], k - 1);
      FirstDirector(crew[1..])
  }

  /** extract_director (transform.py:10-15). Iterating a string or a mapping visits
      strings, which have no `get`; iterating anything else raises TypeError. */
  function ExtractDirector(credits: Value): (r: Result<Value>)
    ensures !Holds(credits, "crew") ==> r == Ok(Missing)
    ensures Holds(credits, "crew") && credits.fields["crew"].List? ==> r == FirstDirector(credits.fields["crew"].items)
  {
    if Holds(credits, "crew") then
      match credits.fields["crew"]
      case List(items) => FirstDirector(items)
      case Str(s) => if s == "" then Ok(Missing) else Err(AttributeError)
      case Dict(fields) => if fields == map[] then Ok(Missing) else Err(AttributeError)
      case _ => Err(TypeError)
    else
      Ok(Missing)
  }

  /** extract_cast_size (transform.py:17-20). */
  function ExtractCastSize(credits: Value): (r: Result<Value>)
    ensures !Holds(credits, "cast") ==> r == Ok(Missing)
    ensures Holds(credits, "cast") && credits.fields["cast"].List? ==>
      r == Ok(Num(|credits.fields["cast"].items| as real))
  {
    if Holds(credits, "cast") then Length(credits.fields["cast"]) else Ok(Missing)
  }

  /** extract_crew_size (transform.py:22-25). */
  function ExtractCrewSize(credits: Value): (r: Result<Value>)
    ensures !Holds(credits, "crew") ==> r == Ok(Missing)
    ensures Holds(credits, "crew") && credits.fields["crew"].List? ==>
      r == Ok(Num(|credits.fields["crew"].items| as real))
  {
    if Holds(credits, "crew") then Length(credits.fields["crew"]) else Ok(Missing)
  }

  /** An element extract_names can read: a mapping whose `name`, if present, is a string. */
  predicate NamedEntry(v: Value) {
    v.Dict? && ("name" in v.fields ==> v.fields["name"].Str?)
  }

  /** extract_names (transform.py:27-30). A list raises exactly when one of its elements
      is not a mapping (no `get`) or carries a `name` that is not a string (the join fails). */
  function ExtractNames(value: Value): (r: Result<Value>)
    ensures !value.List? ==> r == Ok(Missing)
    ensures r.Ok? && value.List? ==> r.value.Str?
    ensures value.List? ==> (r.Ok? <==> forall i :: 0 <= i < |value.items| ==> NamedEntry(value.items[i]))
  {
    if value.List? then
      var names :- MapAll(value.items, NameOrEmpty);
      JoinValues(names)
    else
      Ok(Missing)
  }

  /** extract_collection (transform.py:32-35): `value.get("name")` for a mapping. */
  function ExtractCollection(value: Value): (r: Value)
    ensures r != Missing ==> value.Dict? && "name" in value.fields && r == value.fields["name"]
    ensures value.Dict? && "name" in value.fields ==> r == value.fields["name"]
  {
    if value.Dict? && "name" in value.fields then value.fields["name"] else Missing
  }

  /** A cast list whose first ten entries (or all, when fewer) carry string names: the cast
      field joins those names in order, whatever the later entries hold; the split of that
      field gives them back when no name holds a separator; and the cast size counts every
      entry, not only the first ten. */
  lemma CastOfNamedEntries(credits: Value, kept: seq<string>)
    requires Holds(credits, "cast") && credits.fields["cast"].List?
    requires |kept| == if |credits.fields["cast"].items| <= CastLimit then |credits.fields["cast"].items| else CastLimit
    requires forall i :: 0 <= i < |kept| ==> NameField(credits.fields["cast"].items[i]) == Ok(Str(kept[i]))
    ensures ExtractCast(credits) == Ok(Str(Join(kept)))
    ensures ExtractCastSize(credits) == Ok(Num(|credits.fields["cast"].items| as real))
    ensures |kept| >= 1 && (forall i :: 0 <= i < |kept| ==> Sep !in kept[i]) ==> Split(Join(kept)) == kept
  {
    CastJoined(credits.fields["cast"].items, kept);
    if |kept| >= 1 && (forall i :: 0 <= i < |kept| ==> Sep !in kept[i]) {
      SplitJoin(kept);
    }
  }

  /** The slice-read-join of extract_cast on a cast list whose first names are `kept`. */
  lemma CastJoined(items: seq<Value>, kept: seq<string>)
    requires |kept| == if |items| <= CastLimit then |items| else CastLimit
    requires forall i :: 0 <= i < |kept| ==> NameField(items[i]) == Ok(Str(kept[i]))
    ensures var values := MapAll(Head(List(items), CastLimit).value, NameField);
      values.Ok? && JoinValues(values.value) == Ok(Str(Join(kept)))
  {
    var entries := Head(List(items), CastLimit).value;
    var values := MapAll(entries, NameField);
    assert values.Ok? && |values.value| == |kept|;
    assert Strings(values.value) == kept;
  }

  /** A list of mappings whose names are strings (or absent, read as ""): the joined field
      holds the n names in order with n - 1 separators, and splits back into them when no
      name holds a separator; an empty list gives "". */
  lemma NamesOfEntries(value: Value, names: seq<string>)
    requires value.List? && |value.items| == |names|
    requires forall i :: 0 <= i < |names| ==> NameOrEmpty(value.items[i]) == Ok(Str(names[i]))
    ensures ExtractNames(value) == Ok(Str(Join(names)))
    ensures |names| == 0 ==> Join(names) == ""
    ensures |names| >= 1 && (forall i :: 0 <= i < |names| ==> Sep !in names[i]) ==>
      Split(Join(names)) == names && Occurrences(Join(names), Sep) == |names| - 1
  {
    var values := MapAll(value.items, NameOrEmpty);
    assert Strings(values.value) == names;
    if |names| >= 1 && (forall i :: 0 <= i < |names| ==> Sep !in names[i]) {
      SplitJoin(names);
      JoinSeparators(names);
    }
  }
}
