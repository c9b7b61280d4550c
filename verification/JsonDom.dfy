/** Messages to JSON values and back. A message type is described by its fields; a message has one
    slot for each of them. */
module JsonDom {
  import opened Common

  // ---------------------------------------------------------------- messages

  datatype Kind = Int32 | Int64 | Uint32 | Uint64 | Text | Truth | Enum(numbers: set<int>) | Message(name: string)

  /** A single field without explicit presence is there exactly when it is not the default. */
  datatype Shape = Single(explicit: bool) | Repeated | Mapped(key: Kind)

  datatype Field = Field(name: string, kind: Kind, shape: Shape)

  /** listed is the order in which fields with data are listed: that of their numbers. */
  datatype Type = Type(fields: seq<Field>, listed: seq<nat>)

  type Schema = map<string, Type>

  datatype Val = Int(n: int) | Bool(b: bool) | Str(s: string) | Sub(msg: Msg)
  datatype Entry = Entry(key: Val, value: Val)
  datatype Content = Absent | One(v: Val) | Many(vs: seq<Val>) | Table(entries: seq<Entry>)
  datatype Msg = Msg(name: string, slots: seq<Content>)

  predicate TypeOk(t: Type) {
    && (forall i, j :: 0 <= i < j < |t.fields| ==> t.fields[i].name != t.fields[j].name)
    && (forall k :: 0 <= k < |t.listed| ==> t.listed[k] < |t.fields|)
    && (forall j, k :: 0 <= j < k < |t.listed| ==> t.listed[j] != t.listed[k])
    && (forall i :: 0 <= i < |t.fields| ==> i in t.listed)
  }

  predicate SchemaOk(sch: Schema) {
    forall t :: t in sch ==> TypeOk(sch[t])
  }

  predicate Shaped(sch: Schema, m: Msg) {
    m.name in sch && |m.slots| == |sch[m.name].fields|
  }

  function Fresh(sch: Schema, name: string): Msg {
    Msg(name, if name in sch then seq(|sch[name].fields|, _ => Absent) else [])
  }

  function Default(sch: Schema, kind: Kind): Val {
    match kind
    case Text => Str("")
    case Truth => Bool(false)
    case Message(name) => Sub(Fresh(sch, name))
    case _ => Int(0)
  }

  const Int32Max := 0x7fff_ffff

  predicate InRange(kind: Kind, n: int) {
    match kind
    case Int32 => -0x8000_0000 <= n <= 0x7fff_ffff
    case Int64 => -0x8000_0000_0000_0000 <= n <= 0x7fff_ffff_ffff_ffff
    case Uint32 => 0 <= n <= 0xffff_ffff
    case Uint64 => 0 <= n <= 0xffff_ffff_ffff_ffff
    case Enum(_) => -0x8000_0000 <= n <= 0x7fff_ffff
    case _ => false
  }

  predicate IsInt(kind: Kind) {
    kind.Int32? || kind.Int64? || kind.Uint32? || kind.Uint64?
  }

  // ---------------------------------------------------------------- messages that conform to their type

  /** A value of its kind. An enum field can hold numbers that its enum does not know. */
  ghost predicate ValOk(sch: Schema, kind: Kind, v: Val)
    decreases v, 0
  {
    match kind
    case Text => v.Str?
    case Truth => v.Bool?
    case Message(name) => v.Sub? && v.msg.name == name && MsgOk(sch, v.msg)
    case _ => v.Int? && InRange(kind, v.n)
  }

  ghost predicate KeyOk(kind: Kind, v: Val) {
    match kind
    case Text => v.Str?
    case Truth => v.Bool?
    case _ => IsInt(kind) && v.Int? && InRange(kind, v.n)
  }

  ghost predicate ContentOk(sch: Schema, f: Field, c: Content)
    decreases c, 0
  {
    || c.Absent?
    || match f.shape
       case Single(explicit) =>
         && c.One? && ValOk(sch, f.kind, c.v)
         && (explicit || f.kind.Message? || c.v != Default(sch, f.kind))
       case Repeated =>
         c.Many? && c.vs != [] && forall i :: 0 <= i < |c.vs| ==> ValOk(sch, f.kind, c.vs[i])
       case Mapped(key) =>
         && c.Table? && c.entries != []
         && (forall i :: 0 <= i < |c.entries| ==> KeyOk(key, c.entries[i].key) && ValOk(sch, f.kind, c.entries[i].value))
         && (forall i, j :: 0 <= i < j < |c.entries| ==> c.entries[i].key != c.entries[j].key)
  }

  ghost predicate MsgOk(sch: Schema, m: Msg)
    decreases m, 0
  {
    Shaped(sch, m) && forall i :: 0 <= i < |m.slots| ==> ContentOk(sch, sch[m.name].fields[i], m.slots[i])
  }

  // ---------------------------------------------------------------- messages that JSON can carry

  /** An enum number is carried if the enum knows it; everything else, if all within it is. */
  ghost predicate ValCarried(sch: Schema, kind: Kind, v: Val)
    requires ValOk(sch, kind, v)
    decreases v, 0
  {
    match kind
    case Enum(numbers) => v.n in numbers
    case Message(_) => MsgCarried(sch, v.msg)
    case _ => true
  }

  /** As the value of a map entry an unknown 0 is carried as well, being the default. */
  ghost predicate EntryCarried(sch: Schema, kind: Kind, v: Val)
    requires ValOk(sch, kind, v)
    decreases v, 1
  {
    ValCarried(sch, kind, v) || (kind.Enum? && v.n == 0)
  }

  /** Of the maps with bool keys only the one with nothing but false is carried. */
  ghost predicate ContentCarried(sch: Schema, f: Field, c: Content)
    requires ContentOk(sch, f, c)
    decreases c, 0
  {
    match c
    case Absent => true
    case One(v) => ValCarried(sch, f.kind, v)
    case Many(vs) => forall i :: 0 <= i < |vs| ==> ValCarried(sch, f.kind, vs[i])
    case Table(es) =>
      && (f.shape.key.Truth? ==> |es| == 1 && es[0].key == Bool(false))
      && forall i :: 0 <= i < |es| ==> EntryCarried(sch, f.kind, es[i].value)
  }

  ghost predicate MsgCarried(sch: Schema, m: Msg)
    requires MsgOk(sch, m)
    decreases m, 0
  {
    forall i :: 0 <= i < |m.slots| ==> ContentCarried(sch, sch[m.name].fields[i], m.slots[i])
  }

  // ---------------------------------------------------------------- JSON values

  datatype Json = Null | Num(n: int) | Logic(b: bool) | Word(s: string) | Arr(items: seq<Json>) | Obj(members: seq<Member>)
  datatype Member = Member(name: string, value: Json)

  /** The position of the first member of that name at or after i, or the number of members. */
  function {:tailrecursion false} FindFrom(ms: seq<Member>, name: string, i: nat): (k: nat)
    requires i <= |ms|
    ensures i <= k <= |ms| && (k < |ms| ==> ms[k].name == name) && forall j :: i <= j < k ==> ms[j].name != name
    decreases |ms| - i
  {
    if i == |ms| || ms[i].name == name then i else FindFrom(ms, name, i + 1)
  }

  function Get(ms: seq<Member>, name: string): Option<Json> {
    var k := FindFrom(ms, name, 0);
    if k < |ms| then Some(ms[k].value) else None
  }

  function SetMember(ms: seq<Member>, name: string, v: Json): seq<Member> {
    var k := FindFrom(ms, name, 0);
    if k < |ms| then ms[k := Member(name, v)] else ms + [Member(name, v)]
  }

  lemma FoundAt(ms: seq<Member>, name: string, k: nat)
    requires k <= |ms| && (k < |ms| ==> ms[k].name == name) && forall j :: 0 <= j < k ==> ms[j].name != name
    ensures FindFrom(ms, name, 0) == k
  {
  }

  lemma GetAfterSet(ms: seq<Member>, name: string, v: Json, x: string)
    ensures Get(SetMember(ms, name, v), x) == if x == name then Some(v) else Get(ms, x)
  {
    var ms' := SetMember(ms, name, v);
    var k := FindFrom(ms, x, 0);
    if x == name {
      FoundAt(ms', x, k);
    } else if k < |ms| {
      FoundAt(ms', x, k);
    } else {
      FoundAt(ms', x, |ms'|);
    }
  }

  // ---------------------------------------------------------------- numbers as text

  function Signed(n: int): string {
    if n < 0 then "-" + Decimal(-n) else Decimal(n)
  }

  function ReadSigned(s: string): int {
    var magnitude: int := if |s| > 0 && s[0] == '-' then NumberAt(s, 1, 0) else NumberAt(s, 0, 0);
    if |s| > 0 && s[0] == '-' then -magnitude else magnitude
  }

  lemma SignedBack(n: int)
    ensures ReadSigned(Signed(n)) == n
  {
    if n < 0 {
      ReadDecimal(Signed(n), 1, -n);
    } else {
      assert Signed(n)[0] == Decimal(n)[0];
      ReadDecimal(Signed(n), 0, n);
    }
  }

  // ---------------------------------------------------------------- from messages to JSON

  predicate Large(kind: Kind, n: int) {
    (kind.Int64? || kind.Uint32? || kind.Uint64?) && n > Int32Max
  }

  /** A single value. Numbers above the 32-bit range become text if large is set. */
  function LoadVal(sch: Schema, kind: Kind, v: Val, large: bool): Json
    requires SchemaOk(sch)
    decreases v, 0
  {
    match v
    case Int(n) => if large && Large(kind, n) then Word(Signed(n)) else Num(n)
    case Bool(b) => Logic(b)
    case Str(s) => Word(s)
    case Sub(m) => if Shaped(sch, m) then Obj(LoadFields(sch, m, large, |sch[m.name].listed|)) else Obj([])
  }

  /** The name under which a map entry appears; all bools share one. */
  function KeyText(key: Val): string {
    match key
    case Int(n) => Signed(n)
    case Str(s) => s
    case _ => ""
  }

  function LoadItems(sch: Schema, f: Field, c: Content, large: bool, n: nat): (r: seq<Json>)
    requires SchemaOk(sch) && c.Many? && n <= |c.vs|
    ensures |r| == n
    decreases c, n
  {
    if n == 0 then [] else LoadItems(sch, f, c, large, n - 1) + [LoadVal(sch, f.kind, c.vs[n - 1], large)]
  }

  function LoadEntries(sch: Schema, f: Field, c: Content, large: bool, n: nat): seq<Member>
    requires SchemaOk(sch) && c.Table? && n <= |c.entries|
    decreases c, n
  {
    if n == 0 then []
    else SetMember(LoadEntries(sch, f, c, large, n - 1), KeyText(c.entries[n - 1].key), LoadVal(sch, f.kind, c.entries[n - 1].value, large))
  }

  function LoadContent(sch: Schema, f: Field, c: Content, large: bool): Json
    requires SchemaOk(sch)
    decreases c, |match c case Many(vs) => vs case _ => []| + |match c case Table(es) => es case _ => []| + 1
  {
    match c
    case Absent => Null
    case One(v) => LoadVal(sch, f.kind, v, large)
    case Many(vs) => Arr(LoadItems(sch, f, c, large, |vs|))
    case Table(es) => Obj(LoadEntries(sch, f, c, large, |es|))
  }

  /** The members for the first k listed fields that have data. */
  function LoadFields(sch: Schema, m: Msg, large: bool, k: nat): seq<Member>
    requires SchemaOk(sch) && Shaped(sch, m) && k <= |sch[m.name].listed|
    decreases m, k
  {
    if k == 0 then []
    else
      var rest := LoadFields(sch, m, large, k - 1);
      var i := sch[m.name].listed[k - 1];
      if m.slots[i].Absent? then rest
      else SetMember(rest, sch[m.name].fields[i].name, LoadContent(sch, sch[m.name].fields[i], m.slots[i], large))
  }

  function Load(sch: Schema, m: Msg, large: bool): Json
    requires SchemaOk(sch) && Shaped(sch, m)
  {
    Obj(LoadFields(sch, m, large, |sch[m.name].listed|))
  }

  // ---------------------------------------------------------------- from JSON to messages

  /** What a value says to a field that is not a message, if anything. fromText says that numbers may
      be given as text. */
  function Scalar(kind: Kind, j: Json, fromText: bool): Option<Val> {
    match kind
    case Text => Some(Str(if j.Word? then j.s else ""))
    case Truth => Some(Bool(j.Logic? && j.b))
    case Message(_) => None
    case Enum(numbers) =>
      var n := if j.Num? && InRange(kind, j.n) then j.n else 0;
      if n in numbers then Some(Int(n)) else None
    case _ =>
      Some(Int(if j.Num? && InRange(kind, j.n) then j.n
               else if j.Word? && fromText && InRange(kind, ReadSigned(j.s)) then ReadSigned(j.s)
               else 0))
  }

  /** The same for any field; a message is filled in on top of what is there. */
  function Pick(sch: Schema, kind: Kind, j: Json, there: Msg, fromText: bool): Option<Val>
    decreases j, 2, 0
  {
    if !kind.Message? then Scalar(kind, j, fromText)
    else if j.Obj? && Shaped(sch, there) then Some(Sub(Msg(there.name, Dump(sch, j, there, fromText, |there.slots|))))
    else None
  }

  function Blank(sch: Schema, kind: Kind): Msg {
    Fresh(sch, if kind.Message? then kind.name else "")
  }

  function PickOr(sch: Schema, kind: Kind, j: Json, fromText: bool): Val
    decreases j, 3, 0
  {
    var v := Pick(sch, kind, j, Blank(sch, kind), fromText);
    if v.Some? then v.value else Default(sch, kind)
  }

  function KeyOf(sch: Schema, key: Kind, name: string, fromText: bool): Val {
    var v := Scalar(key, Word(name), fromText);
    if v.Some? then v.value else Default(sch, key)
  }

  /** Adds array elements to a repeated field. */
  function DumpItems(sch: Schema, kind: Kind, j: Json, fromText: bool, n: nat): seq<Val>
    requires j.Arr? && n <= |j.items|
    decreases j, 1, n
  {
    if n == 0 then []
    else
      var v := Pick(sch, kind, j.items[n - 1], Blank(sch, kind), fromText);
      DumpItems(sch, kind, j, fromText, n - 1) + if v.Some? then [v.value] else []
  }

  /** Adds the members of an object to a map field. */
  function DumpEntries(sch: Schema, key: Kind, kind: Kind, j: Json, fromText: bool, n: nat): seq<Entry>
    requires j.Obj? && n <= |j.members|
    decreases j, 1, n
  {
    if n == 0 then []
    else
      var e := j.members[n - 1];
      DumpEntries(sch, key, kind, j, fromText, n - 1) +
      [Entry(KeyOf(sch, key, e.name, fromText), PickOr(sch, kind, e.value, fromText))]
  }

  function Half(sch: Schema, kind: Kind, j: Json, name: string, fromText: bool): Val
    requires j.Obj?
    decreases j, 0, 0
  {
    var k := FindFrom(j.members, name, 0);
    if k < |j.members| && !j.members[k].value.Arr? then PickOr(sch, kind, j.members[k].value, fromText) else Default(sch, kind)
  }

  /** Adds array elements to a map field: each is an object with a key and a value. */
  function DumpPairs(sch: Schema, key: Kind, kind: Kind, j: Json, fromText: bool, n: nat): seq<Entry>
    requires j.Arr? && n <= |j.items|
    decreases j, 1, n
  {
    if n == 0 then []
    else
      var x := j.items[n - 1];
      DumpPairs(sch, key, kind, j, fromText, n - 1) +
      if x.Obj? then [Entry(Half(sch, key, x, "key", fromText), Half(sch, kind, x, "value", fromText))] else []
  }

  function AddVals(c: Content, vs: seq<Val>): Content {
    if vs == [] then c else if c.Many? then Many(c.vs + vs) else Many(vs)
  }

  function AddEntries(c: Content, es: seq<Entry>): Content {
    if es == [] then c else if c.Table? then Table(c.entries + es) else Table(es)
  }

  /** What setting a single field leaves in its slot. */
  function Stored(sch: Schema, f: Field, v: Val): Content
    requires f.shape.Single?
  {
    if f.shape.explicit || f.kind.Message? || v != Default(sch, f.kind) then One(v) else Absent
  }

  function DumpContent(sch: Schema, f: Field, j: Json, c: Content, fromText: bool): Content
    decreases j, 4, 0
  {
    match f.shape
    case Single(_) =>
      if j.Arr? then c
      else
        var v := Pick(sch, f.kind, j, if c.One? && c.v.Sub? then c.v.msg else Blank(sch, f.kind), fromText);
        if v.Some? then Stored(sch, f, v.value) else c
    case Repeated =>
      if j.Arr? then AddVals(c, DumpItems(sch, f.kind, j, fromText, |j.items|)) else c
    case Mapped(key) =>
      if j.Obj? then AddEntries(c, DumpEntries(sch, key, f.kind, j, fromText, |j.members|))
      else if j.Arr? then AddEntries(c, DumpPairs(sch, key, f.kind, j, fromText, |j.items|))
      else c
  }

  /** The first n slots of a message after an object has been read into it. */
  function Dump(sch: Schema, j: Json, m: Msg, fromText: bool, n: nat): (slots: seq<Content>)
    requires j.Obj? && Shaped(sch, m) && n <= |m.slots|
    ensures |slots| == n
    decreases j, 1, n
  {
    if n == 0 then []
    else
      var f := sch[m.name].fields[n - 1];
      var k := FindFrom(j.members, f.name, 0);
      Dump(sch, j, m, fromText, n - 1) +
      [if k < |j.members| then DumpContent(sch, f, j.members[k].value, m.slots[n - 1], fromText) else m.slots[n - 1]]
  }

  function DumpTo(sch: Schema, j: Json, m: Msg, fromText: bool): Msg
    requires Shaped(sch, m)
  {
    if j.Obj? then Msg(m.name, Dump(sch, j, m, fromText, |m.slots|)) else m
  }

  // ---------------------------------------------------------------- there and back

  lemma {:induction false} FieldsGet(sch: Schema, m: Msg, large: bool, k: nat, i: nat)
    requires SchemaOk(sch) && Shaped(sch, m) && k <= |sch[m.name].listed| && i < |m.slots|
    ensures Get(LoadFields(sch, m, large, k), sch[m.name].fields[i].name) ==
            if i in sch[m.name].listed[..k] && !m.slots[i].Absent? then Some(LoadContent(sch, sch[m.name].fields[i], m.slots[i], large)) else None
    decreases k
  {
    hide LoadContent, SetMember;
    var t := sch[m.name];
    if k > 0 {
      FieldsGet(sch, m, large, k - 1, i);
      var h := t.listed[k - 1];
      assert t.listed[..k] == t.listed[..k - 1] + [h];
      if !m.slots[h].Absent? {
        GetAfterSet(LoadFields(sch, m, large, k - 1), t.fields[h].name, LoadContent(sch, t.fields[h], m.slots[h], large), t.fields[i].name);
      }
    }
  }

  /** Different keys have different names, but for bools. */
  lemma KeysDiffer(kind: Kind, a: Val, b: Val)
    requires !kind.Truth? && KeyOk(kind, a) && KeyOk(kind, b) && a != b
    ensures KeyText(a) != KeyText(b)
  {
    if a.Int? {
      SignedBack(a.n);
      SignedBack(b.n);
    }
  }

  lemma KeyBack(sch: Schema, kind: Kind, key: Val)
    requires !kind.Truth? && KeyOk(kind, key)
    ensures KeyOf(sch, kind, KeyText(key), true) == key
  {
    if key.Int? {
      SignedBack(key.n);
    }
  }

  /** A map field becomes one member for each entry, in order, but for bool keys. */
  lemma {:induction false} EntriesExact(sch: Schema, f: Field, c: Content, large: bool, n: nat)
    requires SchemaOk(sch) && f.shape.Mapped? && !f.shape.key.Truth? && c.Table? && ContentOk(sch, f, c) && n <= |c.entries|
    ensures |LoadEntries(sch, f, c, large, n)| == n
    ensures forall i :: 0 <= i < n ==>
      LoadEntries(sch, f, c, large, n)[i] == Member(KeyText(c.entries[i].key), LoadVal(sch, f.kind, c.entries[i].value, large))
    decreases n
  {
    hide LoadVal, KeyText;
    if n > 0 {
      EntriesExact(sch, f, c, large, n - 1);
      var ms := LoadEntries(sch, f, c, large, n - 1);
      var name := KeyText(c.entries[n - 1].key);
      forall i | 0 <= i < n - 1 ensures ms[i].name != name {
        KeysDiffer(f.shape.key, c.entries[i].key, c.entries[n - 1].key);
      }
      FoundAt(ms, name, n - 1);
    }
  }

  /** Entries with bool keys all land on one member, and the last one stays. */
  lemma {:induction false} BoolKeysMerge(sch: Schema, f: Field, c: Content, large: bool, n: nat)
    requires SchemaOk(sch) && c.Table? && 0 < n <= |c.entries|
    requires forall i :: 0 <= i < |c.entries| ==> c.entries[i].key.Bool?
    ensures LoadEntries(sch, f, c, large, n) == [Member("", LoadVal(sch, f.kind, c.entries[n - 1].value, large))]
    decreases n
  {
    if n > 1 {
      BoolKeysMerge(sch, f, c, large, n - 1);
      FoundAt(LoadEntries(sch, f, c, large, n - 1), "", 0);
    } else {
      assert LoadEntries(sch, f, c, large, 0) == [];
    }
  }

  lemma {:induction false} ValBack(sch: Schema, kind: Kind, v: Val, large: bool)
    requires SchemaOk(sch) && ValOk(sch, kind, v)
    ensures Pick(sch, kind, LoadVal(sch, kind, v, large), Blank(sch, kind), true) == Some(v) <==> ValCarried(sch, kind, v)
    ensures Pick(sch, kind, LoadVal(sch, kind, v, large), Blank(sch, kind), true).None? ==> kind.Enum?
    decreases v, 0
  {
    if v.Int? {
      SignedBack(v.n);
    } else if v.Sub? {
      SlotsBack(sch, v.msg, large, |v.msg.slots|);
      assert v.msg.slots[..|v.msg.slots|] == v.msg.slots;
    }
  }

  lemma {:induction false} EntryBack(sch: Schema, kind: Kind, v: Val, large: bool)
    requires SchemaOk(sch) && ValOk(sch, kind, v)
    ensures PickOr(sch, kind, LoadVal(sch, kind, v, large), true) == v <==> EntryCarried(sch, kind, v)
    decreases v, 1
  {
    ValBack(sch, kind, v, large);
  }

  lemma {:induction false} ItemsAt(sch: Schema, f: Field, c: Content, large: bool, n: nat, i: nat)
    requires SchemaOk(sch) && c.Many? && i < n <= |c.vs|
    ensures LoadItems(sch, f, c, large, n)[i] == LoadVal(sch, f.kind, c.vs[i], large)
    decreases n
  {
    if i < n - 1 {
      ItemsAt(sch, f, c, large, n - 1, i);
    }
  }

  lemma {:induction false} ItemsBack(sch: Schema, f: Field, c: Content, large: bool, n: nat)
    requires SchemaOk(sch) && f.shape.Repeated? && c.Many? && ContentOk(sch, f, c) && n <= |c.vs|
    ensures var back := DumpItems(sch, f.kind, LoadContent(sch, f, c, large), true, n);
      |back| <= n && (back == c.vs[..n] <==> forall i :: 0 <= i < n ==> ValCarried(sch, f.kind, c.vs[i]))
    decreases c, n
  {
    if n > 0 {
      ItemsBack(sch, f, c, large, n - 1);
      ItemsAt(sch, f, c, large, |c.vs|, n - 1);
      ValBack(sch, f.kind, c.vs[n - 1], large);
      assert c.vs[..n] == c.vs[..n - 1] + [c.vs[n - 1]];
      ItemsStep(sch, f, c, large, n);
    }
  }

  /** One more array element is read back, or left out. */
  lemma ItemsStep(sch: Schema, f: Field, c: Content, large: bool, n: nat)
    requires SchemaOk(sch) && f.shape.Repeated? && c.Many? && 0 < n <= |c.vs|
    requires LoadItems(sch, f, c, large, |c.vs|)[n - 1] == LoadVal(sch, f.kind, c.vs[n - 1], large)
    requires var j := LoadContent(sch, f, c, large); |DumpItems(sch, f.kind, j, true, n - 1)| <= n - 1
    ensures var j := LoadContent(sch, f, c, large);
      var front, back := DumpItems(sch, f.kind, j, true, n - 1), DumpItems(sch, f.kind, j, true, n);
      && |back| <= n
      && (back == c.vs[..n] <==>
            front == c.vs[..n - 1] && Pick(sch, f.kind, LoadVal(sch, f.kind, c.vs[n - 1], large), Blank(sch, f.kind), true) == Some(c.vs[n - 1]))
  {
    hide Pick, LoadVal;
    var j := LoadContent(sch, f, c, large);
    var front, back := DumpItems(sch, f.kind, j, true, n - 1), DumpItems(sch, f.kind, j, true, n);
    assert c.vs[..n] == c.vs[..n - 1] + [c.vs[n - 1]];
    if back == c.vs[..n] {
      assert back[..n - 1] == c.vs[..n - 1] && back[n - 1] == c.vs[n - 1];
    }
  }

  lemma {:induction false} EntriesBack(sch: Schema, f: Field, c: Content, large: bool, n: nat)
    requires SchemaOk(sch) && f.shape.Mapped? && !f.shape.key.Truth? && c.Table? && ContentOk(sch, f, c) && n <= |c.entries|
    requires |LoadEntries(sch, f, c, large, |c.entries|)| == |c.entries|
    ensures var back := DumpEntries(sch, f.shape.key, f.kind, LoadContent(sch, f, c, large), true, n);
      |back| == n && (back == c.entries[..n] <==> forall i :: 0 <= i < n ==> EntryCarried(sch, f.kind, c.entries[i].value))
    decreases c, n
  {
    hide LoadVal, LoadEntries, Pick, KeyOf, KeyText, PickOr, EntryCarried;
    if n > 0 {
      EntriesBack(sch, f, c, large, n - 1);
      EntriesExact(sch, f, c, large, |c.entries|);
      KeyBack(sch, f.shape.key, c.entries[n - 1].key);
      EntryBack(sch, f.kind, c.entries[n - 1].value, large);
      assert c.entries[..n] == c.entries[..n - 1] + [c.entries[n - 1]];
      var back := DumpEntries(sch, f.shape.key, f.kind, LoadContent(sch, f, c, large), true, n);
      assert back[..n - 1] == DumpEntries(sch, f.shape.key, f.kind, LoadContent(sch, f, c, large), true, n - 1);
      assert c.entries[..n][..n - 1] == c.entries[..n - 1];
    }
  }

  /** A map with bool keys comes back if and only if all it has is the key false, with a value that is
      carried. */
  lemma {:induction false} BoolKeys(sch: Schema, f: Field, c: Content, large: bool)
    requires SchemaOk(sch) && f.shape == Mapped(Truth) && c.Table? && ContentOk(sch, f, c)
    ensures DumpContent(sch, f, LoadContent(sch, f, c, large), Absent, true) == c <==>
      |c.entries| == 1 && c.entries[0].key == Bool(false) && EntryCarried(sch, f.kind, c.entries[0].value)
    decreases c, 0
  {
    BoolKeysMerge(sch, f, c, large, |c.entries|);
    var j := LoadContent(sch, f, c, large);
    BoolEntry(sch, f, j);
    EntryBack(sch, f.kind, c.entries[|c.entries| - 1].value, large);
  }

  lemma BoolEntry(sch: Schema, f: Field, j: Json)
    requires f.shape == Mapped(Truth) && j.Obj? && |j.members| == 1 && j.members[0].name == ""
    ensures DumpContent(sch, f, j, Absent, true) == Table([Entry(Bool(false), PickOr(sch, f.kind, j.members[0].value, true))])
  {
    hide PickOr;
    assert DumpEntries(sch, Truth, f.kind, j, true, 0) == [];
  }

  lemma {:induction false} ContentBack(sch: Schema, f: Field, c: Content, large: bool)
    requires SchemaOk(sch) && ContentOk(sch, f, c) && !c.Absent?
    ensures DumpContent(sch, f, LoadContent(sch, f, c, large), Absent, true) == c <==> ContentCarried(sch, f, c)
    decreases c, |match c case Many(vs) => vs case _ => []| + |match c case Table(es) => es case _ => []| + 2
  {
    match c
    case One(v) =>
      ValBack(sch, f.kind, v, large);
      SingleBack(sch, f, v, large);
    case Many(vs) =>
      ItemsBack(sch, f, c, large, |vs|);
      assert vs[..|vs|] == vs;
    case Table(es) =>
      if f.shape.key.Truth? {
        BoolKeys(sch, f, c, large);
      } else {
        TableBack(sch, f, c, large);
      }
  }

  lemma SingleBack(sch: Schema, f: Field, v: Val, large: bool)
    requires SchemaOk(sch) && f.shape.Single? && ContentOk(sch, f, One(v))
    ensures DumpContent(sch, f, LoadContent(sch, f, One(v), large), Absent, true) == One(v) <==>
      Pick(sch, f.kind, LoadVal(sch, f.kind, v, large), Blank(sch, f.kind), true) == Some(v)
  {
    hide Pick;
    assert !LoadVal(sch, f.kind, v, large).Arr?;
  }

  lemma {:induction false} TableBack(sch: Schema, f: Field, c: Content, large: bool)
    requires SchemaOk(sch) && f.shape.Mapped? && !f.shape.key.Truth? && c.Table? && ContentOk(sch, f, c)
    ensures DumpContent(sch, f, LoadContent(sch, f, c, large), Absent, true) == c <==>
      forall i :: 0 <= i < |c.entries| ==> EntryCarried(sch, f.kind, c.entries[i].value)
    decreases c, |c.entries| + 1
  {
    hide LoadEntries, DumpEntries, EntryCarried;
    EntriesExact(sch, f, c, large, |c.entries|);
    EntriesBack(sch, f, c, large, |c.entries|);
    assert c.entries[..|c.entries|] == c.entries;
  }

  lemma {:induction false} SlotsBack(sch: Schema, m: Msg, large: bool, n: nat)
    requires SchemaOk(sch) && MsgOk(sch, m) && n <= |m.slots|
    ensures Dump(sch, Load(sch, m, large), Fresh(sch, m.name), true, n) == m.slots[..n] <==>
      forall i :: 0 <= i < n ==> ContentCarried(sch, sch[m.name].fields[i], m.slots[i])
    decreases m, n
  {
    hide LoadContent, LoadFields, DumpContent, ContentCarried, FindFrom, ContentOk;
    if n > 0 {
      var t, i := sch[m.name], n - 1;
      SlotsBack(sch, m, large, n - 1);
      FieldsGet(sch, m, large, |t.listed|, i);
      assert t.listed[..|t.listed|] == t.listed;
      if !m.slots[i].Absent? {
        ContentBack(sch, t.fields[i], m.slots[i], large);
      } else {
        AbsentIsCarried(sch, t.fields[i]);
      }
      var back := Dump(sch, Load(sch, m, large), Fresh(sch, m.name), true, n);
      assert m.slots[..n] == m.slots[..n - 1] + [m.slots[i]];
      assert back[..n - 1] == Dump(sch, Load(sch, m, large), Fresh(sch, m.name), true, n - 1);
      assert m.slots[..n][..n - 1] == m.slots[..n - 1];
    }
  }

  lemma AbsentIsCarried(sch: Schema, f: Field)
    ensures ContentCarried(sch, f, Absent)
  {
  }

  /** Turning a message that conforms to its type into JSON, and reading that into a fresh message, gives
      the message back if and only if, all the way down, it holds no enum number that its enum does not
      know, other than 0 in a map entry, and no map with bool keys other than one that has just false. */
  lemma RoundTrip(sch: Schema, m: Msg, large: bool)
    requires SchemaOk(sch) && MsgOk(sch, m)
    ensures DumpTo(sch, Load(sch, m, large), Fresh(sch, m.name), true) == m <==> MsgCarried(sch, m)
  {
    SlotsBack(sch, m, large, |m.slots|);
    assert m.slots[..|m.slots|] == m.slots;
  }

  function OneField(name: string, f: Field): Schema {
    map[name := Type([f], [0])]
  }

  /** A message with one field comes back exactly if that field is carried. */
  lemma OneFieldBack(f: Field, c: Content, large: bool)
    requires ContentOk(OneField("M", f), f, c)
    ensures var sch, m := OneField("M", f), Msg("M", [c]);
      && SchemaOk(sch) && MsgOk(sch, m)
      && (DumpTo(sch, Load(sch, m, large), Fresh(sch, "M"), true) == m <==> ContentCarried(sch, f, c))
  {
    hide DumpTo, Load, ContentCarried, ContentOk;
    var sch, m := OneField("M", f), Msg("M", [c]);
    assert sch["M"].fields[0] == f && m.slots[0] == c;
    RoundTrip(sch, m, large);
  }

  /** An enum number 5 where only 0 is known, and a map from true, do not come back. */
  lemma LostOnTheWay(large: bool) returns (number: Field, five: Content, keyed: Field, table: Content)
    ensures var sch, m := OneField("M", number), Msg("M", [five]);
      SchemaOk(sch) && MsgOk(sch, m) && DumpTo(sch, Load(sch, m, large), Fresh(sch, "M"), true) != m
    ensures var sch, m := OneField("M", keyed), Msg("M", [table]);
      SchemaOk(sch) && MsgOk(sch, m) && DumpTo(sch, Load(sch, m, large), Fresh(sch, "M"), true) != m
  {
    hide DumpTo, Load, MsgOk;
    number, five := Field("n", Enum({0}), Single(true)), One(Int(5));
    keyed, table := Field("k", Text, Mapped(Truth)), Table([Entry(Bool(true), Str("x"))]);
    OneFieldBack(number, five, large);
    OneFieldBack(keyed, table, large);
  }

  // ---------------------------------------------------------------- what is written and what is read

  /** How a value that is not a message is written: as what it is, but for a number that needs more than 31 bits,
      of a kind that can hold such numbers, which becomes its decimal text on demand. */
  lemma WrittenValue(sch: Schema, kind: Kind, v: Val, large: bool)
    requires SchemaOk(sch) && ValOk(sch, kind, v) && !kind.Message?
    ensures var j := LoadVal(sch, kind, v, large);
      && (kind.Text? ==> j == Word(v.s)) && (kind.Truth? ==> j == Logic(v.b))
      && (!kind.Text? && !kind.Truth? ==>
            var long := large && v.n > 0x7fff_ffff && !kind.Int32? && !kind.Enum?;
            && (!long ==> j == Num(v.n))
            && (long ==> j.Word? && |j.s| > 0 && (forall k :: 0 <= k < |j.s| ==> IsDigit(j.s[k])) && NumberAt(j.s, 0, 0) == v.n))
  {
    if v.Int? && v.n >= 0 {
      ReadDecimal(Decimal(v.n), 0, v.n);
    }
  }

  /** The first k listed fields that have data. */
  function Present(sch: Schema, m: Msg, k: nat): seq<nat>
    requires Shaped(sch, m) && TypeOk(sch[m.name]) && k <= |sch[m.name].listed|
  {
    if k == 0 then []
    else Present(sch, m, k - 1) + if m.slots[sch[m.name].listed[k - 1]].Absent? then [] else [sch[m.name].listed[k - 1]]
  }

  lemma {:induction false} PresentAre(sch: Schema, m: Msg, k: nat)
    requires Shaped(sch, m) && TypeOk(sch[m.name]) && k <= |sch[m.name].listed|
    ensures forall i :: i in Present(sch, m, k) <==> i in sch[m.name].listed[..k] && i < |m.slots| && !m.slots[i].Absent?
    decreases k
  {
    if k > 0 {
      PresentAre(sch, m, k - 1);
      var listed := sch[m.name].listed;
      assert listed[..k] == listed[..k - 1] + [listed[k - 1]];
    }
  }

  /** A message becomes an object with exactly one member for each field that has data, under the name of the
      field, in the order of the field numbers. */
  lemma {:induction false} MembersExact(sch: Schema, m: Msg, large: bool, k: nat)
    requires SchemaOk(sch) && Shaped(sch, m) && k <= |sch[m.name].listed|
    ensures var ms, here := LoadFields(sch, m, large, k), Present(sch, m, k);
      && |ms| == |here|
      && forall j :: 0 <= j < |ms| ==>
           here[j] < |m.slots| && ms[j] == Member(sch[m.name].fields[here[j]].name, LoadContent(sch, sch[m.name].fields[here[j]], m.slots[here[j]], large))
    decreases k
  {
    hide LoadContent, SetMember;
    if k > 0 {
      MembersExact(sch, m, large, k - 1);
      PresentAre(sch, m, k - 1);
      var t, ms, here := sch[m.name], LoadFields(sch, m, large, k - 1), Present(sch, m, k - 1);
      var h := t.listed[k - 1];
      if !m.slots[h].Absent? {
        forall j | 0 <= j < |ms| ensures ms[j].name != t.fields[h].name {
          assert here[j] in t.listed[..k - 1] && here[j] != h;
        }
        SetNew(ms, t.fields[h].name, LoadContent(sch, t.fields[h], m.slots[h], large));
      }
    }
  }

  lemma SetNew(ms: seq<Member>, name: string, v: Json)
    requires forall j :: 0 <= j < |ms| ==> ms[j].name != name
    ensures SetMember(ms, name, v) == ms + [Member(name, v)]
  {
    FoundAt(ms, name, |ms|);
  }

  /** What a value says to a field: a number, or on demand its text, is that number if it fits the field and 0 if
      not; only a truth value says true; only text says more than the empty text; an enum takes only numbers
      that it knows. */
  lemma ReadsAs(kind: Kind, n: int, b: bool, s: string, fromText: bool)
    ensures IsInt(kind) ==>
      && Scalar(kind, Num(n), fromText) == Some(Int(if InRange(kind, n) then n else 0))
      && Scalar(kind, Word(Signed(n)), fromText) == Some(Int(if fromText && InRange(kind, n) then n else 0))
      && Scalar(kind, Logic(b), fromText) == Some(Int(0))
    ensures kind.Truth? ==> Scalar(kind, Logic(b), fromText) == Some(Bool(b)) && Scalar(kind, Num(n), fromText) == Scalar(kind, Word(s), fromText) == Some(Bool(false))
    ensures kind.Text? ==> Scalar(kind, Word(s), fromText) == Some(Str(s)) && Scalar(kind, Num(n), fromText) == Scalar(kind, Logic(b), fromText) == Some(Str(""))
    ensures kind.Enum? && InRange(kind, n) ==> Scalar(kind, Num(n), fromText) == if n in kind.numbers then Some(Int(n)) else None
  {
    SignedBack(n);
  }

  /** Reading an object changes exactly the fields that it has members for; of several members of the same name the
      first one, here the k-th, counts. */
  lemma {:induction false} SlotRead(sch: Schema, j: Json, m: Msg, fromText: bool, n: nat, i: nat, k: nat)
    requires j.Obj? && Shaped(sch, m) && i < n <= |m.slots| && k <= |j.members|
    requires forall l :: 0 <= l < k ==> j.members[l].name != sch[m.name].fields[i].name
    requires k < |j.members| ==> j.members[k].name == sch[m.name].fields[i].name
    ensures Dump(sch, j, m, fromText, n)[i] ==
      if k < |j.members| then DumpContent(sch, sch[m.name].fields[i], j.members[k].value, m.slots[i], fromText) else m.slots[i]
    decreases n
  {
    hide DumpContent, FindFrom;
    FoundAt(j.members, sch[m.name].fields[i].name, k);
    if i < n - 1 {
      SlotRead(sch, j, m, fromText, n - 1, i, k);
    }
  }

  /** A field takes only values of its shape: a single one no array, a repeated one only arrays, and what it has is
      kept; arrays and objects add to what a repeated or a map field has. */
  lemma ShapesRead(sch: Schema, f: Field, j: Json, c: Content, fromText: bool)
    requires ContentOk(sch, f, c)
    ensures var r := DumpContent(sch, f, j, c, fromText);
      && (f.shape.Single? && j.Arr? ==> r == c)
      && (f.shape.Repeated? && !j.Arr? ==> r == c)
      && (f.shape.Repeated? && c.Many? ==> r.Many? && c.vs <= r.vs)
      && (f.shape.Mapped? && !j.Arr? && !j.Obj? ==> r == c)
      && (f.shape.Mapped? && c.Table? ==> r.Table? && c.entries <= r.entries)
  {
    hide DumpItems, DumpEntries, DumpPairs, Pick;
  }

  // ---------------------------------------------------------------- the loader

  method FindMember(ms: seq<Member>, name: string) returns (k: nat)
    ensures k == FindFrom(ms, name, 0)
  {
    k := 0;
    while k < |ms| && ms[k].name != name
      invariant k <= |ms| && FindFrom(ms, name, 0) == FindFrom(ms, name, k)
    {
      k := k + 1;
    }
  }

  method MutableSetMember(ms: seq<Member>, name: string, v: Json) returns (r: seq<Member>)
    ensures r == SetMember(ms, name, v)
  {
    var k := FindMember(ms, name);
    if k < |ms| {
      r := ms[k := Member(name, v)];
    } else {
      r := ms + [Member(name, v)];
    }
  }

  method LoadValue(sch: Schema, kind: Kind, v: Val, large: bool) returns (j: Json)
    requires SchemaOk(sch)
    ensures j == LoadVal(sch, kind, v, large)
    decreases v, 0
  {
    match v
    case Int(n) =>
      if large && Large(kind, n) {
        j := Word(Signed(n));
      } else {
        j := Num(n);
      }
    case Bool(b) =>
      j := Logic(b);
    case Str(s) =>
      j := Word(s);
    case Sub(m) =>
      if Shaped(sch, m) {
        j := LoadFrom(sch, m, large);
      } else {
        j := Obj([]);
      }
  }

  method LoadFieldItem(sch: Schema, f: Field, c: Content, large: bool) returns (j: Json)
    requires SchemaOk(sch)
    ensures j == LoadContent(sch, f, c, large)
    decreases c, 1
  {
    match c
    case Absent =>
      j := Null;
    case One(v) =>
      j := LoadValue(sch, f.kind, v, large);
    case Many(vs) =>
      var list: seq<Json> := [];
      for i := 0 to |vs|
        invariant list == LoadItems(sch, f, c, large, i)
      {
        var item := LoadValue(sch, f.kind, vs[i], large);
        list := list + [item];
      }
      j := Arr(list);
    case Table(es) =>
      var obj: seq<Member> := [];
      for i := 0 to |es|
        invariant obj == LoadEntries(sch, f, c, large, i)
      {
        var value := LoadValue(sch, f.kind, es[i].value, large);
        obj := MutableSetMember(obj, KeyText(es[i].key), value);
      }
      j := Obj(obj);
  }

  /** Writes the fields that have data, in the order of their numbers. */
  method LoadFrom(sch: Schema, m: Msg, large: bool) returns (j: Json)
    requires SchemaOk(sch) && Shaped(sch, m)
    ensures j == Load(sch, m, large)
    decreases m, 2
  {
    var t := sch[m.name];
    var obj: seq<Member> := [];
    for k := 0 to |t.listed|
      invariant obj == LoadFields(sch, m, large, k)
    {
      var i := t.listed[k];
      if !m.slots[i].Absent? {
        var value := LoadFieldItem(sch, t.fields[i], m.slots[i], large);
        obj := MutableSetMember(obj, t.fields[i].name, value);
      }
    }
    j := Obj(obj);
  }

  method DumpPickField(sch: Schema, kind: Kind, j: Json, there: Msg, fromText: bool) returns (v: Option<Val>)
    ensures v == Pick(sch, kind, j, there, fromText)
    decreases j, 2
  {
    if !kind.Message? {
      v := Scalar(kind, j, fromText);
    } else if j.Obj? && Shaped(sch, there) {
      var m := DumpMessage(sch, j, there, fromText);
      v := Some(Sub(m));
    } else {
      v := None;
    }
  }

  lemma SlotKept(a: seq<Content>, b: seq<Content>, i: nat)
    requires |a| == |b| && i < |a| && a[i..] == b[i..]
    ensures a[i] == b[i]
  {
    assert a[i..][0] == b[i..][0];
  }

  lemma SlotSet(a: seq<Content>, b: seq<Content>, i: nat, c: Content)
    requires |a| == |b| && i < |a| && a[i..] == b[i..]
    ensures a[i := c][..i + 1] == a[..i] + [c] && a[i := c][i + 1..] == b[i + 1..]
  {
    assert a[i + 1..] == a[i..][1..] && b[i + 1..] == b[i..][1..];
  }

  /** Reads the members of an object into the fields they name, one field after the other. */
  method DumpMessage(sch: Schema, j: Json, m: Msg, fromText: bool) returns (r: Msg)
    requires Shaped(sch, m)
    ensures r == DumpTo(sch, j, m, fromText)
    decreases j, 1
  {
    if !j.Obj? {
      return m;
    }
    var slots := m.slots;
    for i := 0 to |slots|
      invariant |slots| == |m.slots|
      invariant slots[..i] == Dump(sch, j, m, fromText, i) && slots[i..] == m.slots[i..]
    {
      hide DumpContent, FindFrom;
      var f := sch[m.name].fields[i];
      var k := FindMember(j.members, f.name);
      var c := slots[i];
      SlotKept(slots, m.slots, i);
      if k < |j.members| {
        c := DumpFieldItem(sch, f, j.members[k].value, c, fromText);
      }
      SlotSet(slots, m.slots, i, c);
      slots := slots[i := c];
    }
    r := Msg(m.name, slots);
  }

  method DumpFieldItem(sch: Schema, f: Field, j: Json, c: Content, fromText: bool) returns (r: Content)
    ensures r == DumpContent(sch, f, j, c, fromText)
    decreases j, 3
  {
    r := c;
    match f.shape
    case Single(_) =>
      if !j.Arr? {
        var v := DumpPickField(sch, f.kind, j, if c.One? && c.v.Sub? then c.v.msg else Blank(sch, f.kind), fromText);
        if v.Some? {
          r := Stored(sch, f, v.value);
        }
      }
    case Repeated =>
      if j.Arr? {
        var vs: seq<Val> := [];
        for i := 0 to |j.items|
          invariant vs == DumpItems(sch, f.kind, j, fromText, i)
        {
          var v := DumpPickField(sch, f.kind, j.items[i], Blank(sch, f.kind), fromText);
          if v.Some? {
            vs := vs + [v.value];
          }
        }
        r := AddVals(c, vs);
      }
    case Mapped(key) =>
      var es := DumpFieldItemMap(sch, key, f.kind, j, fromText);
      r := AddEntries(c, es);
  }

  method DumpFieldItemMap(sch: Schema, key: Kind, kind: Kind, j: Json, fromText: bool) returns (es: seq<Entry>)
    ensures es == if j.Obj? then DumpEntries(sch, key, kind, j, fromText, |j.members|)
                  else if j.Arr? then DumpPairs(sch, key, kind, j, fromText, |j.items|)
                  else []
    decreases j, 2
  {
    es := [];
    if j.Obj? {
      for i := 0 to |j.members|
        invariant es == DumpEntries(sch, key, kind, j, fromText, i)
      {
        var v := DumpPickField(sch, kind, j.members[i].value, Blank(sch, kind), fromText);
        es := es + [Entry(KeyOf(sch, key, j.members[i].name, fromText), if v.Some? then v.value else Default(sch, kind))];
      }
    } else if j.Arr? {
      es := DumpFieldItemPairs(sch, key, kind, j, fromText);
    }
  }

  method DumpFieldItemPairs(sch: Schema, key: Kind, kind: Kind, j: Json, fromText: bool) returns (es: seq<Entry>)
    requires j.Arr?
    ensures es == DumpPairs(sch, key, kind, j, fromText, |j.items|)
  {
    es := [];
    for i := 0 to |j.items|
      invariant es == DumpPairs(sch, key, kind, j, fromText, i)
    {
      if j.items[i].Obj? {
        es := es + [Entry(Half(sch, key, j.items[i], "key", fromText), Half(sch, kind, j.items[i], "value", fromText))];
      }
    }
  }
}
