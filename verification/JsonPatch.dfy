/** JSON values, JSON Pointer paths (RFC 6901) and the `add` and `replace` operations of JSON Patch (RFC 6902). */
module JsonPatch {
  import opened Outcomes
  import opened Decimals
  import opened Splitting

  datatype Json =
    | Null
    | Bool(flag: bool)
    | Number(number: int)
    | Text(text: string)
    | Array(elements: seq<Json>)
    | Object(members: map<string, Json>)

  // ----------------------------------------------------------------- pointers

  /** `~1` stands for a slash and `~0` for a tilde (section 4 of RFC 6901). */
  function Unescaped(t: string): string
    decreases |t|
  {
    if |t| < 2 || t[0] != '~' then (if t == "" then "" else [t[0]] + Unescaped(t[1..]))
    else if t[1] == '1' then "/" + Unescaped(t[2..])
    else if t[1] == '0' then "~" + Unescaped(t[2..])
    else [t[0]] + Unescaped(t[1..])
  }

  /** The path a pointer denotes, its reference tokens unescaped (section 3 of RFC 6901); every pointer
      but the empty one starts with a slash. */
  function Path(pointer: string): Option<seq<string>> {
    if pointer == "" then Some([])
    else if pointer[0] != '/' then None
    else
      var tokens := Split(pointer[1..]);
      Some(seq(|tokens|, k requires 0 <= k < |tokens| => Unescaped(tokens[k])))
  }

  predicate Verbatim(t: string) {
    '/' !in t && '~' !in t
  }

  lemma {:induction false} VerbatimToken(t: string)
    requires '~' !in t
    ensures Unescaped(t) == t
  {
    if t != "" {
      assert t[0] in t && t == [t[0]] + t[1..];
      VerbatimToken(t[1..]);
    }
  }

  function Pointer1(a: string): string {
    "/" + a
  }

  function Pointer2(a: string, b: string): string {
    "/" + a + "/" + b
  }

  lemma PathOfPointers(a: string, b: string)
    requires Verbatim(a) && Verbatim(b)
    ensures Path(Pointer1(a)) == Some([a]) && Path(Pointer2(a, b)) == Some([a, b])
  {
    VerbatimToken(a);
    VerbatimToken(b);
    SplitAfter(a, b);
    SplitAfter(b, "");
    assert Pointer1(a)[1..] == a && Pointer2(a, b)[1..] == a + "/" + b;
    assert Path(Pointer1(a)).value == [a];
    assert Split(a + "/" + b) == [a, b] && Path(Pointer2(a, b)).value == [a, b];
  }

  // --------------------------------------------------------------- operations

  datatype Operation = Add(path: string, value: Json) | Replace(path: string, value: Json)

  /** Array indices have no leading zeros. */
  function Index(token: string): Option<nat> {
    if token != "" && (forall c :: c in token ==> IsDigit(c)) && (token == "0" || token[0] != '0')
    then Some(Value(token)) else None
  }

  /** Change the value a path leads to; the last token is left to `edit`, which sees the container. */
  function Descend(doc: Json, path: seq<string>, edit: (Json, string) -> Option<Json>): Option<Json>
    requires path != []
    decreases |path|
  {
    if |path| == 1 then edit(doc, path[0])
    else
      match doc
      case Object(m) =>
        if path[0] !in m then None
        else (match Descend(m[path[0]], path[1..], edit)
              case None => None
              case Some(v) => Some(Object(m[path[0] := v])))
      case Array(a) =>
        var i := Index(path[0]);
        if i == None || i.value >= |a| then None
        else (match Descend(a[i.value], path[1..], edit)
              case None => None
              case Some(v) => Some(Array(a[i.value := v])))
      case _ => None
  }

  /** Section 4.1: insert into an array, append with "-", or set a member. */
  function Added(container: Json, token: string, value: Json): Option<Json> {
    match container
    case Object(m) => Some(Object(m[token := value]))
    case Array(a) =>
      if token == "-" then Some(Array(a + [value]))
      else
        var i := Index(token);
        if i == None || i.value > |a| then None else Some(Array(a[..i.value] + [value] + a[i.value..]))
    case _ => None
  }

  /** Section 4.3: the target must exist. */
  function Replaced(container: Json, token: string, value: Json): Option<Json> {
    match container
    case Object(m) => if token in m then Some(Object(m[token := value])) else None
    case Array(a) =>
      var i := Index(token);
      if i == None || i.value >= |a| then None else Some(Array(a[i.value := value]))
    case _ => None
  }

  function Edit(op: Operation): (Json, string) -> Option<Json> {
    (c, t) => if op.Add? then Added(c, t, op.value) else Replaced(c, t, op.value)
  }

  function Apply(doc: Json, op: Operation): Option<Json> {
    match Path(op.path)
    case None => None
    case Some(path) =>
      if path == [] then Some(op.value)
      else Descend(doc, path, Edit(op))
  }

  /** Operations are applied in order; when one fails the patch fails (section 5). */
  function ApplyAll(doc: Json, patch: seq<Operation>): Option<Json>
    decreases |patch|
  {
    if patch == [] then Some(doc)
    else
      match Apply(doc, patch[0])
      case None => None
      case Some(next) => ApplyAll(next, patch[1..])
  }

  lemma {:induction false} ApplyConcat(doc: Json, a: seq<Operation>, b: seq<Operation>)
    ensures ApplyAll(doc, a + b) == match ApplyAll(doc, a) { case None => None case Some(next) => ApplyAll(next, b) }
    decreases |a|
  {
    if a == [] {
      assert a + b == b;
    } else {
      assert (a + b)[0] == a[0] && (a + b)[1..] == a[1..] + b;
      if Apply(doc, a[0]).Some? { ApplyConcat(Apply(doc, a[0]).value, a[1..], b); }
    }
  }

  // ----------------------------------------------- the operations a run emits

  lemma ReplaceMember(m: map<string, Json>, a: string, value: Json)
    requires Verbatim(a) && a in m
    ensures Apply(Object(m), Replace(Pointer1(a), value)) == Some(Object(m[a := value]))
  {
    PathOfPointers(a, "");
  }

  lemma DescendOnce(m: map<string, Json>, a: string, b: string, edit: (Json, string) -> Option<Json>)
    requires a in m
    ensures Descend(Object(m), [a, b], edit) ==
            match edit(m[a], b) { case None => None case Some(v) => Some(Object(m[a := v])) }
  {
    assert [a, b][1..] == [b] && Descend(m[a], [b], edit) == edit(m[a], b);
  }

  lemma AppendToMember(m: map<string, Json>, a: string, value: Json)
    requires Verbatim(a) && a in m && m[a].Array?
    ensures Apply(Object(m), Add(Pointer2(a, "-"), value)) == Some(Object(m[a := Array(m[a].elements + [value])]))
  {
    PathOfPointers(a, "-");
    DescendOnce(m, a, "-", Edit(Add(Pointer2(a, "-"), value)));
  }

  lemma AddToMember(m: map<string, Json>, a: string, key: string, value: Json)
    requires Verbatim(a) && Verbatim(key) && a in m && m[a].Object?
    ensures Apply(Object(m), Add(Pointer2(a, key), value)) == Some(Object(m[a := Object(m[a].members[key := value])]))
  {
    PathOfPointers(a, key);
    DescendOnce(m, a, key, Edit(Add(Pointer2(a, key), value)));
  }
}
