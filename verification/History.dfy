/** `_normalize_history`: any list of JSON-like values becomes a list of clean conversation turns. */
module History {
  import opened Common
  import opened TextTools

  datatype Json = Null | Bool(b: bool) | Num(n: int) | Str(s: string) | List(items: seq<Json>)
                | Dict(fields: map<string, Json>)

  /** Python's `str` of anything that is not a string already. */
  type Render = Json -> string

  predicate Truthy(j: Json) {
    match j
    case Null => false
    case Bool(b) => b
    case Num(n) => n != 0
    case Str(s) => s != ""
    case List(items) => items != []
    case Dict(fields) => fields != map[]
  }

  /** `a or b`. */
  function Or(a: Json, b: Json): Json {
    if Truthy(a) then a else b
  }

  function Text(render: Render, j: Json): string {
    if j.Str? then j.s else render(j)
  }

  type Fields = map<string, Json>

  function Get(d: Fields, key: string): Json {
    if key in d then d[key] else Null
  }

  function LowerChar(c: char): char {
    if 'A' <= c <= 'Z' then ((c as int) + 32) as char else c
  }

  /** Lower-casing, as far as the ASCII role names can tell. */
  function Lower(s: string): (r: string)
    ensures |r| == |s| && forall i :: 0 <= i < |s| ==> r[i] == LowerChar(s[i])
  {
    seq(|s|, i requires 0 <= i < |s| => LowerChar(s[i]))
  }

  function RoleOf(raw: string): string {
    match raw
    case "user" => "user"
    case "human" => "user"
    case "assistant" => "assistant"
    case "agent" => "assistant"
    case "ai" => "assistant"
    case "bot" => "assistant"
    case "system" => "system"
    case "developer" => "system"
    case _ => "user"
  }

  function Speaker(render: Render, item: Fields): string {
    RoleOf(Lower(Text(render, Or(Or(Or(Get(item, "role"), Get(item, "from")), Get(item, "sender")), Str("user")))))
  }

  function Content(render: Render, item: Fields): string {
    var given := Get(item, "content");
    var content := if given != Null then given
                   else Or(Or(Or(Get(item, "text"), Get(item, "message")), Get(item, "answer")), Str(""));
    Strip(Text(render, content))
  }

  /** A field that is kept, trimmed, when it is a string with some text. */
  function NonBlank(j: Json): Option<string> {
    if j.Str? && Strip(j.s) != "" then Some(Strip(j.s)) else None
  }

  datatype Addressee = Addressee(name: string, isUser: bool)

  /** What is kept of one message; `to` is empty when the key is left out. */
  datatype Turn = Turn(role: string, content: string, agentName: Option<string>, sender: Option<string>,
                       to: seq<Addressee>, directedToMe: bool)

  function ReadAddressee(render: Render, t: Json): Option<Addressee> {
    if !t.Dict? then None
    else
      var name := Strip(Text(render, Or(Get(t.fields, "name"), Str(""))));
      if name == "" then None else Some(Addressee(name, Get(t.fields, "kind") == Str("user")))
  }

  function AddresseeReader(render: Render): Json -> Option<Addressee> {
    t => ReadAddressee(render, t)
  }

  function ReadTo(render: Render, to: Json): seq<Addressee> {
    if to.List? then Collect(AddresseeReader(render), to.items) else []
  }

  /** One message, or nothing when the value is no object or has no text. */
  function ReadTurn(render: Render, item: Json): Option<Turn> {
    if !item.Dict? || Content(render, item.fields) == "" then None
    else
      var d := item.fields;
      Some(Turn(Speaker(render, d), Content(render, d),
                NonBlank(Or(Or(Get(d, "agentName"), Get(d, "agent")), Get(d, "name"))), NonBlank(Get(d, "from")),
                ReadTo(render, Get(d, "to")), Truthy(Get(d, "directedToMe"))))
  }

  function WriteAddressee(a: Addressee): Json {
    Dict(map["name" := Str(a.name), "kind" := Str(if a.isUser then "user" else "agent")])
  }

  function AddresseeWriter(): Addressee -> Option<Json> {
    a => Some(WriteAddressee(a))
  }

  function WriteAddressees(to: seq<Addressee>): seq<Json> {
    Collect(AddresseeWriter(), to)
  }

  function Set(d: Fields, key: string, present: bool, value: Json): Fields {
    if present then d[key := value] else d
  }

  function StrOf(s: Option<string>): Json {
    if s.Some? then Str(s.value) else Null
  }

  /** The normalised message, with the optional keys it has. */
  function WriteTurn(t: Turn): Json {
    var base := map["role" := Str(t.role), "content" := Str(t.content)];
    var named := Set(base, "agentName", t.agentName.Some?, StrOf(t.agentName));
    var sent := Set(named, "from", t.sender.Some?, StrOf(t.sender));
    var sentTo := Set(sent, "to", t.to != [], List(WriteAddressees(t.to)));
    Dict(Set(sentTo, "directedToMe", t.directedToMe, Bool(true)))
  }

  function NormalForm(render: Render, item: Json): Option<Json> {
    var turn := ReadTurn(render, item);
    if turn.Some? then Some(WriteTurn(turn.value)) else None
  }

  function Normalizer(render: Render): Json -> Option<Json> {
    item => NormalForm(render, item)
  }

  function Normalized(render: Render, history: seq<Json>): seq<Json> {
    Collect(Normalizer(render), history)
  }

  // ---- the loops ------------------------------------------------------------

  function AddresseeCopier(render: Render): Json -> Option<Json> {
    t => if ReadAddressee(render, t).Some? then Some(WriteAddressee(ReadAddressee(render, t).value)) else None
  }

  method CopyAddressee(render: Render, t: Json) returns (target: Option<Json>)
    ensures target == AddresseeCopier(render)(t)
  {
    if !t.Dict? {
      return None;
    }
    var name := Strip(Text(render, Or(Get(t.fields, "name"), Str(""))));
    if name == "" {
      return None;
    }
    var kind := if Get(t.fields, "kind") == Str("user") then "user" else "agent";
    target := Some(Dict(map["name" := Str(name), "kind" := Str(kind)]));
  }

  method CopyAddressees(render: Render, items: seq<Json>) returns (targets: seq<Json>)
    ensures targets == WriteAddressees(Collect(AddresseeReader(render), items))
  {
    targets := [];
    for i := 0 to |items|
      invariant targets == Collect(AddresseeCopier(render), items[..i])
    {
      CollectSnoc(AddresseeCopier(render), items[..i], items[i]);
      assert items[..i + 1] == items[..i] + [items[i]];
      var target := CopyAddressee(render, items[i]);
      if target.Some? {
        targets := targets + [target.value];
      }
    }
    assert items[..|items|] == items;
    CollectTwice(AddresseeReader(render), AddresseeWriter(), AddresseeCopier(render), items);
  }

  /** Fills in one turn, field by field. */
  method FillTurn(render: Render, item: Fields, text: string) returns (entry: Fields)
    requires text == Content(render, item) && text != ""
    ensures Dict(entry) == WriteTurn(ReadTurn(render, Dict(item)).value)
  {
    entry := map["role" := Str(Speaker(render, item)), "content" := Str(text)];
    entry := AddText(entry, "agentName", Or(Or(Get(item, "agentName"), Get(item, "agent")), Get(item, "name")));
    entry := AddText(entry, "from", Get(item, "from"));
    entry := AddTargets(render, entry, Get(item, "to"));
    if Truthy(Get(item, "directedToMe")) {
      entry := entry["directedToMe" := Bool(true)];
    }
  }

  method AddText(before: Fields, key: string, value: Json) returns (entry: Fields)
    ensures entry == Set(before, key, NonBlank(value).Some?, StrOf(NonBlank(value)))
  {
    entry := before;
    if value.Str? {
      var text := Strip(value.s);
      if text != "" {
        entry := entry[key := Str(text)];
      }
    }
  }

  method AddTargets(render: Render, before: Fields, to: Json) returns (entry: Fields)
    ensures entry == Set(before, "to", ReadTo(render, to) != [], List(WriteAddressees(ReadTo(render, to))))
  {
    entry := before;
    if to.List? {
      var targets := CopyAddressees(render, to.items);
      if targets != [] {
        entry := entry["to" := List(targets)];
      }
    }
  }

  /** One round of the loop. */
  method NormalizeOne(render: Render, item: Json) returns (entry: Option<Json>)
    ensures entry == NormalForm(render, item)
  {
    if !item.Dict? {
      return None;
    }
    var text := Content(render, item.fields);
    if text == "" {
      return None;
    }
    var fields := FillTurn(render, item.fields, text);
    entry := Some(Dict(fields));
  }

  lemma NormalizedGrows(render: Render, history: seq<Json>, i: nat)
    requires i < |history|
    ensures var entry := NormalForm(render, history[i]);
            Normalized(render, history[..i + 1]) ==
            if entry.Some? then Normalized(render, history[..i]) + [entry.value] else Normalized(render, history[..i])
  {
    CollectSnoc(Normalizer(render), history[..i], history[i]);
    assert history[..i + 1] == history[..i] + [history[i]];
  }

  method NormalizeHistory(render: Render, history: seq<Json>) returns (out: seq<Json>)
    ensures out == Normalized(render, history)
  {
    out := [];
    for i := 0 to |history|
      invariant out == Normalized(render, history[..i])
    {
      NormalizedGrows(render, history, i);
      var entry := NormalizeOne(render, history[i]);
      if entry.Some? {
        out := out + [entry.value];
      }
    }
    assert history[..|history|] == history;
  }

  // ---- what is kept is clean, and clean turns are kept ----------------------

  predicate CleanName(name: Option<string>) {
    name.Some? ==> Trimmed(name.value)
  }

  ghost predicate CleanTo(to: seq<Addressee>) {
    forall a :: a in to ==> Trimmed(a.name)
  }

  ghost predicate Clean(t: Turn) {
    && t.role in {"user", "assistant", "system"}
    && Trimmed(t.content) && CleanName(t.agentName) && CleanName(t.sender) && CleanTo(t.to)
  }

  lemma NonBlankIsClean(j: Json)
    ensures CleanName(NonBlank(j))
  {
    if j.Str? {
      StripEnds(j.s);
    }
  }

  lemma NonBlankKeeps(name: Option<string>)
    requires CleanName(name)
    ensures NonBlank(StrOf(name)) == name
  {
    if name.Some? {
      StripKeepsTrimmed(name.value);
    }
  }

  lemma AddresseeIsClean(render: Render, t: Json)
    ensures ReadAddressee(render, t).Some? ==> Trimmed(ReadAddressee(render, t).value.name)
  {
    if t.Dict? {
      StripEnds(Text(render, Or(Get(t.fields, "name"), Str(""))));
    }
  }

  lemma AddresseesAreClean(render: Render, items: seq<Json>)
    ensures CleanTo(Collect(AddresseeReader(render), items))
  {
    var read := AddresseeReader(render);
    CollectGives(read, items);
    forall a: Addressee | a in Collect(read, items)
      ensures Trimmed(a.name)
    {
      var t :| t in items && read(t) == Some(a);
      AddresseeIsClean(render, t);
    }
  }

  lemma AddresseeIsKept(render: Render, a: Addressee)
    requires Trimmed(a.name)
    ensures ReadAddressee(render, WriteAddressee(a)) == Some(a)
  {
    var d := WriteAddressee(a).fields;
    StripKeepsTrimmed(a.name);
    assert Or(Get(d, "name"), Str("")) == Str(a.name) && Strip(Text(render, Str(a.name))) == a.name != "";
    assert Get(d, "kind") == Str("user") <==> a.isUser;
  }

  lemma AddresseesAreKept(render: Render, to: seq<Addressee>)
    requires CleanTo(to)
    ensures Collect(AddresseeReader(render), WriteAddressees(to)) == to
  {
    forall a | a in to
      ensures ReadAddressee(render, WriteAddressee(a)) == Some(a)
    {
      AddresseeIsKept(render, a);
    }
    CollectBack(AddresseeReader(render), AddresseeWriter(), to);
  }

  lemma ContentIsClean(render: Render, d: Fields)
    ensures Content(render, d) == "" || Trimmed(Content(render, d))
  {
    var given := Get(d, "content");
    StripEnds(Text(render, if given != Null then given
                        else Or(Or(Or(Get(d, "text"), Get(d, "message")), Get(d, "answer")), Str(""))));
  }

  /** Whatever it is read from, a turn that is kept has a known role and trimmed, non-blank texts. */
  lemma ReadIsClean(render: Render, item: Json)
    ensures ReadTurn(render, item).Some? ==> Clean(ReadTurn(render, item).value)
  {
    if item.Dict? {
      var d := item.fields;
      ContentIsClean(render, d);
      NonBlankIsClean(Or(Or(Get(d, "agentName"), Get(d, "agent")), Get(d, "name")));
      NonBlankIsClean(Get(d, "from"));
      if Get(d, "to").List? {
        AddresseesAreClean(render, Get(d, "to").items);
      }
    }
  }

  lemma WrittenFields(t: Turn)
    ensures var d := WriteTurn(t).fields;
            && Get(d, "role") == Str(t.role) && Get(d, "content") == Str(t.content)
            && Get(d, "agentName") == StrOf(t.agentName) && Get(d, "agent") == Null && Get(d, "name") == Null
            && Get(d, "from") == StrOf(t.sender)
            && Get(d, "to") == (if t.to != [] then List(WriteAddressees(t.to)) else Null)
            && Get(d, "directedToMe") == (if t.directedToMe then Bool(true) else Null)
  {
  }

  lemma RolesAreLower(role: string)
    requires role in {"user", "assistant", "system"}
    ensures Lower(role) == role && RoleOf(role) == role
  {
  }

  lemma NamesAreKept(t: Turn)
    requires Clean(t)
    ensures var d := WriteTurn(t).fields;
            NonBlank(Or(Or(Get(d, "agentName"), Get(d, "agent")), Get(d, "name"))) == t.agentName &&
            NonBlank(Get(d, "from")) == t.sender
  {
    WrittenFields(t);
    NonBlankKeeps(t.agentName);
    NonBlankKeeps(t.sender);
  }

  lemma TextsAreKept(render: Render, t: Turn)
    requires Clean(t)
    ensures var d := WriteTurn(t).fields; Speaker(render, d) == t.role && Content(render, d) == t.content
  {
    WrittenFields(t);
    RolesAreLower(t.role);
    StripKeepsTrimmed(t.content);
  }

  lemma ToIsKept(render: Render, t: Turn)
    requires Clean(t)
    ensures ReadTo(render, Get(WriteTurn(t).fields, "to")) == t.to
  {
    WrittenFields(t);
    AddresseesAreKept(render, t.to);
  }

  /** Reading a clean turn that was written gives it back. */
  lemma WrittenTurnIsRead(render: Render, t: Turn)
    requires Clean(t)
    ensures ReadTurn(render, WriteTurn(t)) == Some(t)
  {
    WrittenFields(t);
    NamesAreKept(t);
    TextsAreKept(render, t);
    ToIsKept(render, t);
  }

  ghost predicate IsClean(item: Json) {
    exists t :: Clean(t) && item == WriteTurn(t)
  }

  /** Every message of a normalised history is a clean turn, written out. */
  lemma NormalizedIsClean(render: Render, history: seq<Json>)
    ensures forall item :: item in Normalized(render, history) ==> IsClean(item)
  {
    var normalize := Normalizer(render);
    CollectGives(normalize, history);
    forall item | item in Normalized(render, history)
      ensures IsClean(item)
    {
      var raw :| raw in history && normalize(raw) == Some(item);
      ReadIsClean(render, raw);
    }
  }

  lemma CleanIsKept(render: Render, item: Json)
    requires IsClean(item)
    ensures Normalizer(render)(item) == Some(item)
  {
    var t :| Clean(t) && item == WriteTurn(t);
    WrittenTurnIsRead(render, t);
  }

  /** Normalising twice, as a bridged run does, is normalising once. */
  lemma NormalizingIsIdempotent(render: Render, history: seq<Json>)
    ensures Normalized(render, Normalized(render, history)) == Normalized(render, history)
  {
    var once := Normalized(render, history);
    NormalizedIsClean(render, history);
    forall item | item in once
      ensures Normalizer(render)(item) == Some(item)
    {
      CleanIsKept(render, item);
    }
    CollectKeeps(Normalizer(render), once);
  }

  // ---- what one message becomes ---------------------------------------------

  /** The text is this lower-case ASCII name, in any mixture of cases. */
  predicate Spells(text: string, name: string) {
    |text| == |name| && forall i :: 0 <= i < |name| ==>
      text[i] == name[i] || ('A' <= text[i] <= 'Z' && text[i] as int + 32 == name[i] as int)
  }

  lemma SpellsMeans(text: string, name: string)
    requires forall i :: 0 <= i < |name| ==> 'a' <= name[i] <= 'z'
    ensures Spells(text, name) <==> Lower(text) == name
  {
    if Lower(text) == name {
      assert forall i :: 0 <= i < |name| ==> Lower(text)[i] == LowerChar(text[i]);
    }
  }

  lemma SpellsOne(text: string)
    ensures Spells(text, "assistant") <==> Lower(text) == "assistant"
    ensures Spells(text, "agent") <==> Lower(text) == "agent"
    ensures Spells(text, "ai") <==> Lower(text) == "ai"
    ensures Spells(text, "bot") <==> Lower(text) == "bot"
    ensures Spells(text, "system") <==> Lower(text) == "system"
    ensures Spells(text, "developer") <==> Lower(text) == "developer"
  {
    SpellsMeans(text, "assistant");
    SpellsMeans(text, "agent");
    SpellsMeans(text, "ai");
    SpellsMeans(text, "bot");
    SpellsMeans(text, "system");
    SpellsMeans(text, "developer");
  }

  /** The three roles: four names of the assistant, two of the system, and the user for all the rest. */
  ghost predicate IsRole(role: string, said: string) {
    if Spells(said, "assistant") || Spells(said, "agent") || Spells(said, "ai") || Spells(said, "bot") then
      role == "assistant"
    else if Spells(said, "system") || Spells(said, "developer") then role == "system"
    else role == "user"
  }

  lemma RoleIs(said: string)
    ensures IsRole(RoleOf(Lower(said)), said)
  {
    SpellsOne(said);
  }

  /** What Python takes for false. */
  ghost predicate Falsy(j: Json) {
    j == Null || j == Bool(false) || j == Num(0) || j == Str("") || j == List([]) || j == Dict(map[])
  }

  lemma TruthyMeans(j: Json)
    ensures Truthy(j) <==> !Falsy(j)
  {
  }

  /** The value is under the first of these keys that has a truthy one, and is `last` if none has. */
  ghost predicate FirstOf(d: Fields, a: string, b: string, c: string, last: Json, j: Json) {
    if a in d && !Falsy(d[a]) then j == d[a]
    else if b in d && !Falsy(d[b]) then j == d[b]
    else if c in d && !Falsy(d[c]) then j == d[c]
    else j == last
  }

  lemma FirstIsOr(d: Fields, a: string, b: string, c: string, last: Json, j: Json)
    requires FirstOf(d, a, b, c, last, j)
    ensures Or(Or(Or(Get(d, a), Get(d, b)), Get(d, c)), last) == j
  {
    TruthyMeans(Get(d, a));
    TruthyMeans(Get(d, b));
    TruthyMeans(Get(d, c));
  }

  lemma TurnHas(render: Render, d: Fields)
    ensures var turn := ReadTurn(render, Dict(d));
            && (turn.Some? <==> Content(render, d) != "")
            && (turn.Some? ==> turn.value.role == Speaker(render, d) && turn.value.content == Content(render, d))
  {
  }

  lemma SpeakerIs(render: Render, d: Fields, said: Json)
    requires FirstOf(d, "role", "from", "sender", Str("user"), said)
    ensures Speaker(render, d) == RoleOf(Lower(Text(render, said)))
  {
    FirstIsOr(d, "role", "from", "sender", Str("user"), said);
  }

  /** Who spoke is told by the first of three keys that has something; without any it is the user. */
  lemma SpeakerMeans(render: Render, d: Fields, said: Json)
    requires FirstOf(d, "role", "from", "sender", Str("user"), said)
    ensures var turn := ReadTurn(render, Dict(d));
            turn.Some? ==> IsRole(turn.value.role, if said.Str? then said.s else render(said))
  {
    TurnHas(render, d);
    SpeakerIs(render, d, said);
    RoleIs(Text(render, said));
  }

  /** `content` is the text unless it is missing or null. */
  ghost predicate IsText(d: Fields, said: Json) {
    if "content" in d && d["content"] != Null then said == d["content"]
    else FirstOf(d, "text", "message", "answer", Str(""), said)
  }

  lemma ContentIs(render: Render, d: Fields, said: Json)
    requires IsText(d, said)
    ensures Content(render, d) == Strip(Text(render, said))
  {
    if !("content" in d && d["content"] != Null) {
      FirstIsOr(d, "text", "message", "answer", Str(""), said);
    }
  }

  /** A message is kept exactly when it has some text, which loses the white space at its ends. */
  lemma ContentMeans(render: Render, d: Fields, said: Json)
    requires IsText(d, said)
    ensures var (turn, text) := (ReadTurn(render, Dict(d)), if said.Str? then said.s else render(said));
            && (turn.None? <==> Blank(text))
            && (turn.Some? ==> IsStripped(text, turn.value.content))
  {
    TurnHas(render, d);
    ContentIs(render, d, said);
    StripTrims(Text(render, said));
  }

  /** A name that is a string with some text is kept without the white space at its ends. */
  ghost predicate IsName(j: Json, name: Option<string>) {
    if j.Str? && !Blank(j.s) then name.Some? && IsStripped(j.s, name.value) else name.None?
  }

  lemma NonBlankIsName(j: Json)
    ensures IsName(j, NonBlank(j))
  {
    if j.Str? {
      StripTrims(j.s);
    }
  }

  lemma TurnNames(render: Render, d: Fields)
    ensures var turn := ReadTurn(render, Dict(d));
            turn.Some? ==>
              && turn.value.agentName == NonBlank(Or(Or(Get(d, "agentName"), Get(d, "agent")), Get(d, "name")))
              && turn.value.sender == NonBlank(Get(d, "from"))
              && turn.value.directedToMe == Truthy(Get(d, "directedToMe"))
              && turn.value.to == ReadTo(render, Get(d, "to"))
  {
  }

  lemma NameIs(d: Fields, name: Json)
    requires FirstOf(d, "agentName", "agent", "name", Null, name)
    ensures NonBlank(Or(Or(Get(d, "agentName"), Get(d, "agent")), Get(d, "name"))) == NonBlank(name)
  {
    FirstIsOr(d, "agentName", "agent", "name", Null, name);
  }

  /** The name, the sender, and whether the message was directed at this agent. */
  lemma NamesMean(render: Render, d: Fields, name: Json)
    requires FirstOf(d, "agentName", "agent", "name", Null, name)
    ensures var turn := ReadTurn(render, Dict(d));
            turn.Some? ==> IsName(name, turn.value.agentName) &&
                           IsName(if "from" in d then d["from"] else Null, turn.value.sender) &&
                           (turn.value.directedToMe <==> "directedToMe" in d && !Falsy(d["directedToMe"])) &&
                           (("to" in d && d["to"].List?) || turn.value.to == [])
  {
    TurnNames(render, d);
    TruthyMeans(Get(d, "directedToMe"));
    NameIs(d, name);
    NonBlankIsName(name);
    NonBlankIsName(Get(d, "from"));
  }

  /** One addressee, or none when the value is no object or has no name; of the kinds only "user" counts. */
  ghost predicate IsAddressee(render: Render, t: Json, a: Option<Addressee>) {
    if !t.Dict? then a.None?
    else
      var given := if "name" in t.fields && !Falsy(t.fields["name"]) then t.fields["name"] else Str("");
      var name := if given.Str? then given.s else render(given);
      if Blank(name) then a.None?
      else
        && a.Some? && IsStripped(name, a.value.name)
        && (a.value.isUser <==> "kind" in t.fields && t.fields["kind"] == Str("user"))
  }

  lemma AddresseeMeans(render: Render, t: Json)
    ensures IsAddressee(render, t, ReadAddressee(render, t))
  {
    if t.Dict? {
      TruthyMeans(Get(t.fields, "name"));
      StripTrims(Text(render, Or(Get(t.fields, "name"), Str(""))));
    }
  }

  /** The addressees are those of the list under `to` that are any, in order. */
  lemma AddresseesMean(render: Render, d: Fields) returns (at: seq<nat>)
    requires "to" in d && d["to"].List? && ReadTurn(render, Dict(d)).Some?
    ensures var (items, to) := (d["to"].items, ReadTurn(render, Dict(d)).value.to);
            && |to| == |at| && (forall i, j :: 0 <= i < j < |at| ==> at[i] < at[j])
            && (forall i :: 0 <= i < |at| ==> at[i] < |items| && IsAddressee(render, items[at[i]], Some(to[i])))
            && (forall k :: 0 <= k < |items| && k !in at ==> IsAddressee(render, items[k], None))
  {
    var (read, items) := (AddresseeReader(render), d["to"].items);
    at := CollectPicks(read, items);
    forall k | 0 <= k < |items|
      ensures IsAddressee(render, items[k], read(items[k]))
    {
      AddresseeMeans(render, items[k]);
    }
  }

  /** The normalised history holds, in order, one clean message for each object with some text. */
  lemma NormalizedPicks(render: Render, history: seq<Json>) returns (at: seq<nat>)
    ensures var out := Normalized(render, history);
            && |out| == |at| && (forall i, j :: 0 <= i < j < |at| ==> at[i] < at[j])
            && (forall k :: 0 <= k < |history| ==> (k in at <==> ReadTurn(render, history[k]).Some?))
            && (forall i :: 0 <= i < |at| ==> at[i] < |history| && ReadTurn(render, history[at[i]]).Some? &&
                                              out[i] == WriteTurn(ReadTurn(render, history[at[i]]).value))
  {
    at := CollectPicks(Normalizer(render), history);
  }
}
