// SkillService: skill groups embedded by the text `title: name, name, ...`. Like
// the blog service it imports the id utilities' exports object as `generateId`,
// and it always calls it, so no skill group is ever stored.

module Skills {
  import opened Values
  import opened Results
  import opened Ids
  import opened VectorStore
  import opened Provisioning
  import opened Ownership

  /** `skills.map(s => s.name)`: reading `name` off null or undefined throws. */
  function SkillNames(skills: seq<Value>): (r: Result<seq<Value>>)
    ensures r.Ok? <==> forall i :: 0 <= i < |skills| ==> !Nullish(skills[i])
    ensures r.Ok? ==> |r.value| == |skills| && forall i :: 0 <= i < |skills| ==> r.value[i] == Prop(skills[i], "name")
    ensures r.Err? ==> exists i ::
      (&& 0 <= i < |skills| && Nullish(skills[i]) && r.error == TypeFault(ReadFault(skills[i], "name"))
       && forall j :: 0 <= j < i ==> !Nullish(skills[j]))
  {
    if skills == [] then Ok([])
    else if Nullish(skills[0]) then
      Err(TypeFault(ReadFault(skills[0], "name")))
    else
      var rest := SkillNames(skills[1..]);
      if rest.Err? then rest else Ok([Prop(skills[0], "name")] + rest.value)
  }

  /** `` `${skillData.title}: ${skillData.skills.map(s => s.name).join(', ')}` `` */
  function SkillText(skillData: Payload): (r: Result<string>)
    ensures r.Err? ==> r.error.TypeFault?
    ensures r.Ok? <==> Get(skillData, "skills").Arr? && SkillNames(Get(skillData, "skills").items).Ok?
  {
    var skills := Get(skillData, "skills");
    if Nullish(skills) then
      Err(TypeFault(ReadFault(skills, "map")))
    else if !skills.Arr? then Err(TypeFault("skillData.skills.map is not a function"))
    else
      var names := SkillNames(skills.items);
      if names.Err? then Err(names.error)
      else Ok(JsString(Get(skillData, "title")) + ": "
              + Join(seq(|names.value|, i requires 0 <= i < |names.value| => JoinPart(names.value[i])), ", "))
  }

  /** The text starts with the title and the names follow in array order. */
  lemma SkillTextExamples()
    ensures SkillText(map["title" := Str("Languages"),
                          "skills" := Arr([Obj(map["name" := Str("Go")]), Obj(map["name" := Str("Rust")])])])
      == Ok("Languages: Go, Rust")
  {
    var go, rust := Obj(map["name" := Str("Go")]), Obj(map["name" := Str("Rust")]);
    var d1: Payload := map["title" := Str("Languages"), "skills" := Arr([go, rust])];
    assert Get(d1, "skills") == Arr([go, rust]) && Get(d1, "title") == Str("Languages");
    var both := SkillNames([go, rust]);
    assert Prop(go, "name") == Str("Go") && Prop(rust, "name") == Str("Rust");
    assert both.value == [Str("Go"), Str("Rust")];
    assert seq(2, i requires 0 <= i < 2 => JoinPart(both.value[i])) == ["Go", "Rust"];
    assert Join(["Go", "Rust"], ", ") == "Go, Rust" by {
      assert ["Go", "Rust"][1..] == ["Rust"];
    }
    assert "Languages" + ": " + "Go, Rust" == "Languages: Go, Rust";
  }

  /** A missing title renders as "undefined" and a skill without a name leaves an
      empty slot. */
  lemma SkillTextMissingNames()
    ensures SkillText(map["skills" := Arr([Obj(map["name" := Str("Go")]), Obj(map[])])])
      == Ok("undefined: Go, ")
  {
    var go := Obj(map["name" := Str("Go")]);
    var d2: Payload := map["skills" := Arr([go, Obj(map[])])];
    assert Get(d2, "skills") == Arr([go, Obj(map[])]) && Get(d2, "title") == Undefined;
    var unnamed := SkillNames([go, Obj(map[])]);
    assert Prop(go, "name") == Str("Go") && Prop(Obj(map[]), "name") == Undefined;
    assert unnamed.value == [Str("Go"), Undefined];
    assert seq(2, i requires 0 <= i < 2 => JoinPart(unnamed.value[i])) == ["Go", ""];
    assert Join(["Go", ""], ", ") == "Go, " by {
      assert ["Go", ""][1..] == [""];
    }
    assert "undefined" + ": " + "Go, " == "undefined: Go, ";
  }

  /** An empty skill list leaves the title and the separator. */
  lemma SkillTextEmptyList()
    ensures SkillText(map["title" := Str("Tools"), "skills" := Arr([])]) == Ok("Tools: ")
  {
    var d3: Payload := map["title" := Str("Tools"), "skills" := Arr([])];
    assert Get(d3, "skills") == Arr([]) && Get(d3, "title") == Str("Tools");
    assert SkillNames([]) == Ok([]);
    assert "Tools" + ": " + "" == "Tools: ";
  }

  /** A null entry among the skills, or skills that are not an array, make the text fail. */
  lemma SkillTextFailures(skillData: Payload)
    ensures !Get(skillData, "skills").Arr? ==> SkillText(skillData).Err?
    ensures Get(skillData, "skills").Arr? && Null in Get(skillData, "skills").items ==> SkillText(skillData).Err?
  {
    var skills := Get(skillData, "skills");
    if skills.Arr? && Null in skills.items {
      var i :| 0 <= i < |skills.items| && skills.items[i] == Null;
      assert SkillNames(skills.items).Err?;
    }
  }

  class SkillService {
    const store: Store
    const name: string

    /** `name` is `process.env.SKILL_COLLECTION_NAME || 'skills'`. */
    constructor (store: Store, name: string)
      ensures this.store == store && this.name == name
    {
      this.store := store;
      this.name := name;
    }

    ghost function Ready(cols: Collections): Collections
    {
      Plain(cols, name, NoFaults()).cols
    }

    /** Create on 404, rethrow any other failure; no index. */
    method EnsureCollection(f: Faults) returns (r: Outcome)
      modifies store
      ensures Step(store.collections, r) == Plain(old(store.collections), name, f)
      ensures f == NoFaults() ==> (r == Pass && Provisioned(old(store.collections), store.collections, name)
        && Ready(store.collections) == store.collections)
    {
      PlainProvisions(store.collections, name);
      PlainIdempotent(store.collections, name);
      var probe := store.GetCollection(name, f.getCollection);
      if probe.Fail? {
        if IsNotFoundStatus(probe.error) {
          r := store.CreateCollection(name, EmbeddingSize, f.createCollection);
        } else {
          r := probe;
        }
      } else {
        r := Pass;
      }
    }

    /** `addSkill(skillData)`: builds and embeds the text, then calls the exports object for
        an id, which throws; nothing is ever written. */
    method AddSkill(skillData: Payload) returns (r: Result<Payload>)
      modifies store
      ensures store.collections == Ready(old(store.collections))
      ensures r.Err? && r.error.TypeFault?
      ensures SkillText(skillData).Err? ==> r == Err(SkillText(skillData).error)
      ensures SkillText(skillData).Ok? ==> r == Err(TypeFault("generateId is not a function"))
    {
      var ready := EnsureCollection(NoFaults());
      var text := SkillText(skillData);
      if text.Err? {
        return Err(text.error);
      }
      var embedding := Embed(Str(text.value));
      r := Err(TypeFault("generateId is not a function"));
    }

    /** `getSkills()`: at most 100 payloads, without their ids. */
    method GetSkills() returns (r: Result<seq<Payload>>)
      modifies store
      ensures store.collections == Ready(old(store.collections))
      ensures r.Ok? && PayloadListing(r.value, PointsOf(store.collections, name), PageLimit)
    {
      var ready := EnsureCollection(NoFaults());
      var page := store.Scroll(name, None, PageLimit, None);
      r := Ok(Payloads(page.value));
    }
  }
}
