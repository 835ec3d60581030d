/** The library's own worked scenario: a `State` union with the variants `loading`
    (no data), `error { msg }` and `loaded { n, msg }`. */
module StateExample {
  import opened Records
  import opened Adt

  /** The schema handed to `Cases`: one `Case()` factory per variant. */
  function StateSchema(): (t: map<string, Factory>)
    ensures t.Keys == {"loading", "error", "loaded"}
    ensures forall k :: k in t ==> IsCaseFactory(t[k])
  {
    var f := Case();
    map["loading" := f, "error" := f, "loaded" := f]
  }

  function LoadedData(): Record
  {
    map["n" := Num(123.0), "msg" := Str("some text")]
  }

  /** `State.cases.loaded({ n: 123, msg: "some text" })`. */
  function LoadedState(): (x: Record)
    ensures x == map[TagField := Str("loaded"), "n" := Num(123.0), "msg" := Str("some text")]
  {
    Tag("loaded", LoadedData())
  }

  lemma LoadedStateIsInstance()
    ensures InstanceOf(LoadedState(), StateSchema().Keys) && TagOf(LoadedState()) == "loaded"
  {
  }

  /** The table built from the schema has exactly the schema's keys. */
  lemma TableHasSchemaKeys()
    ensures ConstructorTable(StateSchema()).Keys == {"loading", "error", "loaded"}
  {
  }

  /** `State.cases.loading({})` is `{ _type: "loading" }`. */
  lemma LoadingBuildsTagOnly()
    ensures ConstructorTable(StateSchema())["loading"].build(map[]) == map[TagField := Str("loading")]
  {
    var t := StateSchema();
    assert IsCaseFactory(t["loading"]);
    assert ConstructorTable(t)["loading"].build(map[]) == Tag("loading", map[]);
  }

  /** `State.cases.error({ msg: "some error" })` is `{ _type: "error", msg: "some error" }`. */
  lemma ErrorBuildsTagAndMsg()
    ensures ConstructorTable(StateSchema())["error"].build(map["msg" := Str("some error")])
            == map[TagField := Str("error"), "msg" := Str("some error")]
  {
    var t := StateSchema();
    var data := map["msg" := Str("some error")];
    assert IsCaseFactory(t["error"]);
    assert ConstructorTable(t)["error"].build(data) == Tag("error", data);
  }

  /** `State.cases.loaded({ n: 123, msg: "some text" })` is `LoadedState()`. */
  lemma LoadedBuildsLoadedState()
    ensures ConstructorTable(StateSchema())["loaded"].build(LoadedData()) == LoadedState()
  {
    var t := StateSchema();
    assert IsCaseFactory(t["loaded"]);
  }

  /** The handler `(v) => v._type`. */
  function TypeProperty(v: Record): Value
  {
    Get(v, TagField)
  }

  /** `match` picks the `loaded` handler; each handler returns `v._type`. */
  lemma MatchChoosesBranch()
    ensures Match(LoadedState(), map["loading" := TypeProperty,
                                     "loaded" := TypeProperty,
                                     "error" := TypeProperty])
            == Str("loaded")
  {
  }

  /** The `loaded` handler of that test: `State.cases.error({ msg: v.msg })`. */
  function ErrorFromMsg(v: Record): Record
  {
    ConstructorTable(StateSchema())["error"].build(map["msg" := Get(v, "msg")])
  }

  /** The handlers of that test: `loaded` becomes an `error`, `loading` is kept and
      `error` gets a new message. */
  function RemapPattern(): map<string, Record -> Record>
  {
    map["loaded" := ErrorFromMsg,
        "loading" := (v: Record) => v,
        "error" := (v: Record) => v["msg" := Str("yet again")]]
  }

  /** A handler may map to another case: the `loaded` handler builds an `error`
      carrying the old message, and the result passes `isCase(result, "error")`. */
  lemma MatchMapsToAnotherCase()
    ensures Get(Match(LoadedState(), RemapPattern()), TagField) == Str("error")
    ensures IsCase(Match(LoadedState(), RemapPattern()), ["error"])
    ensures Get(Match(LoadedState(), RemapPattern()), "msg") == Str("some text")
  {
    var x := LoadedState();
    assert TagOf(x) == "loaded";
    assert RemapPattern()["loaded"] == ErrorFromMsg;
    var result := Match(x, RemapPattern());
    assert result == ErrorFromMsg(x);
    assert Get(x, "msg") == Str("some text");
    var t := StateSchema();
    assert IsCaseFactory(t["error"]);
    assert ConstructorTable(t)["error"].build(map["msg" := Str("some text")])
           == Tag("error", map["msg" := Str("some text")]);
  }

  /** `isCase` with one and with two candidates, and under negation. */
  lemma IsCaseFilters()
    ensures !IsCase(LoadedState(), ["loading"])
    ensures !IsCase(LoadedState(), ["loading", "error"])
    ensures IsCase(LoadedState(), ["loaded"])
    ensures !IsCase(LoadedState(), [])
  {
  }

  /** After `isCase(state, "loading")` fails, a pattern with only `loaded` and `error`
      handlers dispatches without error. */
  lemma MatchAfterIsCase()
    ensures TryMatch(LoadedState(), map["loaded" := TypeProperty,
                                        "error" := TypeProperty])
            == Success(Str("loaded"))
  {
    var x := LoadedState();
    var pattern := map["loaded" := TypeProperty,
                       "error" := TypeProperty];
    var schema := {"loading", "error", "loaded"};
    assert TagOf(x) == "loaded";
    assert !IsCase(x, ["loading"]);
    assert (set k | k in ["loading"]) == {"loading"};
    MatchOnComplement(x, schema, ["loading"], pattern);
  }

  /** A switch over all three tags with `allCasesCovered` as its default reaches the
      `loaded` arm, which reads `n`. */
  lemma SwitchReachesLoaded()
    ensures Switch(LoadedState(), [("error", (v: Record) => Undefined),
                                   ("loading", (v: Record) => Undefined),
                                   ("loaded", (v: Record) => Get(v, "n"))])
            == Success(Num(123.0))
  {
  }
}
