/** The tagged-tree codec for configuration values. */
module Codec {
  // Encoding and decoding are inverse to each other on exactly the values and trees they accept, and both meet their
  // budgets on exactly the same values.

  import opened Wrappers

  datatype Values = Nil | Cons(head: Value, tail: Values)

  datatype Entries = Nil | Cons(head: Entry, tail: Entries)

  datatype Jsons = Nil | Cons(head: Json, tail: Jsons)

  /** `Foreign` is an object of any other type, or a mapping with a key that is not a string. */
  datatype Value =
    | Null | Bool(flag: bool) | Int(i: int) | Float(f: int) | Str(s: string)
    | Tuple(items: Values) | Map(entries: Entries) | Foreign(token: int)

  datatype Entry = Entry(key: string, value: Value)

  datatype Json =
    | JNull | JBool(flag: bool) | JNumber(n: int) | JString(s: string) | JArray(items: Jsons) | JObject(token: int)

  const MAX_BYTES: int := 64 * 1024 * 1024
  const MAX_NODES: int := 1_000_000
  const MAX_DEPTH: nat := 64

  datatype Budget = Budget(nodes: int, bytes: int)

  /**
    The texts of numbers and what an integer is charged. Reading accepts more spellings than writing produces.
    `Hexadecimal` below is the one in use; finite floats are written in an exact notation that is a parameter.
   */
  datatype Texts = Texts(writeInt: int -> string, readInt: string -> Option<int>, intCharge: int -> nat,
                         write: int -> string, read: string -> Option<int>)

  /** What is written is read back. */
  ghost predicate Exact(fs: Texts) {
    (forall i :: fs.readInt(fs.writeInt(i)) == Some(i)) && (forall x :: fs.read(fs.write(x)) == Some(x))
  }

  // ---- hexadecimal integers ----------------------------------------------------------------------

  const DIGITS := "0123456789abcdef"

  function Digits(n: nat): string {
    if n < 16 then [DIGITS[n]] else Digits(n / 16) + [DIGITS[n % 16]]
  }

  function Hex(i: int): string {
    if i < 0 then "-0x" + Digits(-i) else "0x" + Digits(i)
  }

  function DigitValue(c: char): Option<nat> {
    if '0' <= c <= '9' then Some((c - '0') as nat)
    else if 'a' <= c <= 'f' then Some((c - 'a') as nat + 10)
    else if 'A' <= c <= 'F' then Some((c - 'A') as nat + 10)
    else None
  }

  function ParseDigits(s: string): Option<nat> {
    if s == "" then None
    else
      var last := DigitValue(s[|s| - 1]);
      if |s| == 1 then last
      else
        var front := ParseDigits(s[..|s| - 1]);
        if front.Some? && last.Some? then Some(16 * front.value + last.value) else None
  }

  function ParseMagnitude(s: string): Option<nat> {
    if |s| >= 2 && s[0] == '0' && (s[1] == 'x' || s[1] == 'X') then ParseDigits(s[2..]) else ParseDigits(s)
  }

  /** Reading a base-16 integer: a sign and the prefix are optional, letters may be upper case. */
  function ParseHex(s: string): Option<int> {
    if s == "" then None
    else if s[0] == '-' then
      match ParseMagnitude(s[1..])
      case None => None
      case Some(n) => Some(-(n as int))
    else
      match ParseMagnitude(if s[0] == '+' then s[1..] else s)
      case None => None
      case Some(n) => Some(n)
  }

  lemma DigitRead(d: nat)
    requires d < 16
    ensures DigitValue(DIGITS[d]) == Some(d)
  {
  }

  lemma OneDigit(d: nat)
    requires d < 16
    ensures ParseDigits([DIGITS[d]]) == Some(d)
  {
    DigitRead(d);
  }

  lemma OneMoreDigit(front: string, q: nat, d: nat)
    requires front != "" && ParseDigits(front) == Some(q) && d < 16 && DigitValue(DIGITS[d]) == Some(d)
    ensures ParseDigits(front + [DIGITS[d]]) == Some(16 * q + d)
  {
    assert (front + [DIGITS[d]])[..|front|] == front;
  }

  lemma {:induction false} DigitsRead(n: nat)
    ensures ParseDigits(Digits(n)) == Some(n) && Digits(n) != ""
  {
    hide ParseDigits, DigitValue;
    DigitRead(n % 16);
    if n < 16 {
      OneDigit(n);
    } else {
      DigitsRead(n / 16);
      OneMoreDigit(Digits(n / 16), n / 16, n % 16);
    }
  }

  lemma MagnitudeRead(n: nat)
    ensures ParseMagnitude("0x" + Digits(n)) == Some(n)
  {
    DigitsRead(n);
    assert ("0x" + Digits(n))[2..] == Digits(n);
  }

  lemma PositiveRead(text: string, n: nat)
    requires ParseMagnitude(text) == Some(n) && text != "" && text[0] == '0'
    ensures ParseHex(text) == Some(n)
  {
  }

  lemma NegativeRead(text: string, n: nat)
    requires ParseMagnitude(text) == Some(n)
    ensures ParseHex("-" + text) == Some(-(n as int))
  {
    assert ("-" + text)[1..] == text;
  }

  lemma HexRead(i: int)
    ensures ParseHex(Hex(i)) == Some(i)
  {
    var text := "0x" + Digits(Magnitude(i));
    MagnitudeRead(Magnitude(i));
    if i < 0 {
      assert Hex(i) == "-" + text;
      NegativeRead(text, -i);
    } else {
      PositiveRead(text, i);
    }
  }

  function Magnitude(i: int): nat {
    if i < 0 then -i else i
  }

  function BitLength(n: nat): nat {
    if n == 0 then 0 else 1 + BitLength(n / 2)
  }

  /** How many hexadecimal digits a number needs, none for zero: a quarter of its bits, rounded up. */
  function Nibbles(n: nat): nat {
    if n == 0 then 0 else 1 + Nibbles(n / 16)
  }

  lemma {:induction false} NibblesAreBits(n: nat)
    ensures Nibbles(n) == (BitLength(n) + 3) / 4
  {
    if n >= 16 {
      NibblesAreBits(n / 16);
      FourBits(n);
    } else {
      FewBits(n);
    }
  }

  lemma FewBits(n: nat)
    requires n < 16
    ensures BitLength(n) <= 4 && (n > 0 ==> BitLength(n) >= 1)
    ensures n < 8 ==> BitLength(n) <= 3
    ensures n < 4 ==> BitLength(n) <= 2
    ensures n < 2 ==> BitLength(n) <= 1
  {
    if n > 0 {
      FewBits(n / 2);
    }
  }

  lemma FourBits(n: nat)
    requires n >= 16
    ensures BitLength(n) == 4 + BitLength(n / 16)
  {
    var a := n / 2;
    var b := a / 2;
    var c := b / 2;
    assert c / 2 == n / 16 && c > 0;
    assert BitLength(c) == 1 + BitLength(c / 2);
    assert BitLength(b) == 1 + BitLength(c);
    assert BitLength(a) == 1 + BitLength(b);
  }

  /** The texts in use: signed hexadecimal integers, charged by their hexadecimal digits. */
  function Hexadecimal(write: int -> string, read: string -> Option<int>): Texts {
    Texts((i: int) => Hex(i), (s: string) => ParseHex(s), (i: int) => Nibbles(Magnitude(i)), write, read)
  }

  lemma HexadecimalIsExact(write: int -> string, read: string -> Option<int>)
    requires forall x :: read(write(x)) == Some(x)
    ensures Exact(Hexadecimal(write, read))
    ensures forall i :: Hexadecimal(write, read).intCharge(i) == (BitLength(Magnitude(i)) + 3) / 4
  {
    forall i
      ensures ParseHex(Hex(i)) == Some(i)
    {
      HexRead(i);
    }
    forall i
      ensures Nibbles(Magnitude(i)) == (BitLength(Magnitude(i)) + 3) / 4
    {
      NibblesAreBits(Magnitude(i));
    }
  }

  // ---- what a value costs ----------------------------------------------------------------------------

  function OwnCharge(v: Value, fs: Texts): nat {
    16 + (match v
          case Str(s) => 6 * |s|
          case Int(i) => fs.intCharge(i)
          case _ => 0)
  }

  function KeyCharge(key: string): nat {
    6 * |key| + 16
  }

  function KeysCharge(entries: Entries): nat {
    match entries
    case Nil => 0
    case Cons(e, rest) => KeyCharge(e.key) + KeysCharge(rest)
  }

  function Nodes(v: Value): nat {
    1 + match v
        case Tuple(items) => ItemNodes(items)
        case Map(entries) => EntryNodes(entries)
        case _ => 0
  }

  function ItemNodes(items: Values): nat {
    match items
    case Nil => 0
    case Cons(v, rest) => Nodes(v) + ItemNodes(rest)
  }

  function EntryNodes(entries: Entries): nat {
    match entries
    case Nil => 0
    case Cons(e, rest) => Nodes(e.value) + EntryNodes(rest)
  }

  function Cost(v: Value, fs: Texts): nat {
    OwnCharge(v, fs) + match v
                   case Tuple(items) => ItemCosts(items, fs)
                   case Map(entries) => KeysCharge(entries) + EntryCosts(entries, fs)
                   case _ => 0
  }

  function ItemCosts(items: Values, fs: Texts): nat {
    match items
    case Nil => 0
    case Cons(v, rest) => Cost(v, fs) + ItemCosts(rest, fs)
  }

  function EntryCosts(entries: Entries, fs: Texts): nat {
    match entries
    case Nil => 0
    case Cons(e, rest) => Cost(e.value, fs) + EntryCosts(rest, fs)
  }

  /** Only portable types, no deeper than the limit when it stands at `depth`. */
  predicate Fits(v: Value, depth: nat) {
    && depth <= MAX_DEPTH
    && match v
       case Foreign(_) => false
       case Tuple(items) => ItemsFit(items, depth + 1)
       case Map(entries) => EntriesFit(entries, depth + 1)
       case _ => true
  }

  predicate ItemsFit(items: Values, depth: nat) {
    match items
    case Nil => true
    case Cons(v, rest) => Fits(v, depth) && ItemsFit(rest, depth)
  }

  predicate EntriesFit(entries: Entries, depth: nat) {
    match entries
    case Nil => true
    case Cons(e, rest) => Fits(e.value, depth) && EntriesFit(rest, depth)
  }

  // ---- what the budgets count ------------------------------------------------------------------------

  /** What a value is made of: its keys, the characters of its strings and keys, and the digits of its integers. */
  datatype Census = Census(keys: nat, characters: nat, digits: nat)

  function Plus(a: Census, b: Census): Census {
    Census(a.keys + b.keys, a.characters + b.characters, a.digits + b.digits)
  }

  function CensusOf(v: Value, fs: Texts): Census {
    match v
    case Str(s) => Census(0, |s|, 0)
    case Int(i) => Census(0, 0, fs.intCharge(i))
    case Tuple(items) => ItemsCensus(items, fs)
    case Map(entries) => EntriesCensus(entries, fs)
    case _ => Census(0, 0, 0)
  }

  function ItemsCensus(items: Values, fs: Texts): Census {
    match items
    case Nil => Census(0, 0, 0)
    case Cons(v, rest) => Plus(CensusOf(v, fs), ItemsCensus(rest, fs))
  }

  function EntriesCensus(entries: Entries, fs: Texts): Census {
    match entries
    case Nil => Census(0, 0, 0)
    case Cons(e, rest) => Plus(Plus(Census(1, |e.key|, 0), CensusOf(e.value, fs)), EntriesCensus(rest, fs))
  }

  /** A value costs 16 bytes for every value and key in it, six for every character, and one for every digit. */
  lemma {:induction false} CostCounts(v: Value, fs: Texts)
    ensures Cost(v, fs) == 16 * (Nodes(v) + CensusOf(v, fs).keys) + 6 * CensusOf(v, fs).characters + CensusOf(v, fs).digits
  {
    match v
    case Tuple(items) => ItemCostsCount(items, fs);
    case Map(entries) => EntryCostsCount(entries, fs);
    case _ =>
  }

  lemma {:induction false} ItemCostsCount(items: Values, fs: Texts)
    ensures var c := ItemsCensus(items, fs); ItemCosts(items, fs) == 16 * (ItemNodes(items) + c.keys) + 6 * c.characters + c.digits
  {
    match items
    case Nil =>
    case Cons(v, rest) =>
      CostCounts(v, fs);
      ItemCostsCount(rest, fs);
  }

  lemma {:induction false} EntryCostsCount(entries: Entries, fs: Texts)
    ensures var c := EntriesCensus(entries, fs);
      KeysCharge(entries) + EntryCosts(entries, fs) == 16 * (EntryNodes(entries) + c.keys) + 6 * c.characters + c.digits
  {
    match entries
    case Nil =>
    case Cons(e, rest) =>
      CostCounts(e.value, fs);
      EntryCostsCount(rest, fs);
  }

  predicate Portable(v: Value) {
    match v
    case Foreign(_) => false
    case Tuple(items) => AllPortable(items)
    case Map(entries) => EntriesPortable(entries)
    case _ => true
  }

  predicate AllPortable(items: Values) {
    match items
    case Nil => true
    case Cons(v, rest) => Portable(v) && AllPortable(rest)
  }

  predicate EntriesPortable(entries: Entries) {
    match entries
    case Nil => true
    case Cons(e, rest) => Portable(e.value) && EntriesPortable(rest)
  }

  function Larger(a: nat, b: nat): nat {
    if a < b then b else a
  }

  /** How deep values are nested in the value. */
  function Depth(v: Value): nat {
    match v
    case Tuple(items) => ItemsDepth(items)
    case Map(entries) => EntriesDepth(entries)
    case _ => 0
  }

  function ItemsDepth(items: Values): nat {
    match items
    case Nil => 0
    case Cons(v, rest) => Larger(1 + Depth(v), ItemsDepth(rest))
  }

  function EntriesDepth(entries: Entries): nat {
    match entries
    case Nil => 0
    case Cons(e, rest) => Larger(1 + Depth(e.value), EntriesDepth(rest))
  }

  /** A value fits exactly if everything in it is portable and no deeper than 64. */
  lemma {:induction false} FitsExactly(v: Value, depth: nat)
    ensures Fits(v, depth) <==> Portable(v) && depth + Depth(v) <= 64
  {
    match v
    case Tuple(items) => ItemsFitExactly(items, depth);
    case Map(entries) => EntriesFitExactly(entries, depth);
    case _ =>
  }

  lemma {:induction false} ItemsFitExactly(items: Values, depth: nat)
    ensures depth <= 64 && ItemsFit(items, depth + 1) <==> AllPortable(items) && depth + ItemsDepth(items) <= 64
  {
    match items
    case Nil =>
    case Cons(v, rest) =>
      FitsExactly(v, depth + 1);
      ItemsFitExactly(rest, depth);
  }

  lemma {:induction false} EntriesFitExactly(entries: Entries, depth: nat)
    ensures depth <= 64 && EntriesFit(entries, depth + 1) <==> EntriesPortable(entries) && depth + EntriesDepth(entries) <= 64
  {
    match entries
    case Nil =>
    case Cons(e, rest) =>
      FitsExactly(e.value, depth + 1);
      EntriesFitExactly(rest, depth);
  }

  predicate HasKey(entries: Entries, key: string) {
    match entries
    case Nil => false
    case Cons(e, rest) => e.key == key || HasKey(rest, key)
  }

  /** A mapping has each key once. */
  predicate Proper(v: Value) {
    match v
    case Tuple(items) => ItemsProper(items)
    case Map(entries) => EntriesProper(entries)
    case _ => true
  }

  predicate ItemsProper(items: Values) {
    match items
    case Nil => true
    case Cons(v, rest) => Proper(v) && ItemsProper(rest)
  }

  predicate EntriesProper(entries: Entries) {
    match entries
    case Nil => true
    case Cons(e, rest) => Proper(e.value) && !HasKey(rest, e.key) && EntriesProper(rest)
  }

  // ---- encoding --------------------------------------------------------------------------------------

  function Pair(a: Json, b: Json): Json {
    JArray(Jsons.Cons(a, Jsons.Cons(b, Jsons.Nil)))
  }

  function Tagged(tag: string, raw: Json): Json {
    Pair(JString(tag), raw)
  }

  /** An encoded value and what is left of the budget. */
  datatype Encoded = Refused | Encoded(tree: Json, left: Budget)

  datatype EncodedAll = RefusedAll | EncodedAll(trees: Jsons, left: Budget)

  function Boxed(tag: string, all: EncodedAll): Encoded {
    if all.RefusedAll? then Refused else Encoded(Tagged(tag, JArray(all.trees)), all.left)
  }

  function Joined(first: Json, others: EncodedAll): EncodedAll {
    if others.RefusedAll? then RefusedAll else EncodedAll(Jsons.Cons(first, others.trees), others.left)
  }

  /** `_tree`: the budget shrinks with every node and every key, and must never go negative. */
  function TreeOf(v: Value, depth: nat, budget: Budget, fs: Texts): Encoded
    decreases v
  {
    var left := Budget(budget.nodes - 1, budget.bytes - OwnCharge(v, fs));
    if left.nodes < 0 || left.bytes < 0 || depth > MAX_DEPTH then Refused
    else
      match v
      case Null => Encoded(JArray(Jsons.Cons(JString("null"), Jsons.Nil)), left)
      case Bool(flag) => Encoded(Tagged("bool", JBool(flag)), left)
      case Int(i) => Encoded(Tagged("int", JString(fs.writeInt(i))), left)
      case Float(f) => Encoded(Tagged("float", JString(fs.write(f))), left)
      case Str(s) => Encoded(Tagged("str", JString(s)), left)
      case Tuple(items) => Boxed("tuple", TreesOf(items, depth + 1, left, fs))
      case Map(entries) =>
        var charged := Budget(left.nodes, left.bytes - KeysCharge(entries));
        if charged.bytes < 0 then Refused else Boxed("map", EntryTreesOf(entries, depth + 1, charged, fs))
      case Foreign(_) => Refused
  }

  function TreesOf(items: Values, depth: nat, budget: Budget, fs: Texts): EncodedAll
    decreases items
  {
    match items
    case Nil => EncodedAll(Jsons.Nil, budget)
    case Cons(v, rest) =>
      match TreeOf(v, depth, budget, fs)
      case Refused => RefusedAll
      case Encoded(tree, left) => Joined(tree, TreesOf(rest, depth, left, fs))
  }

  function EntryTreesOf(entries: Entries, depth: nat, budget: Budget, fs: Texts): EncodedAll
    decreases entries
  {
    match entries
    case Nil => EncodedAll(Jsons.Nil, budget)
    case Cons(e, rest) =>
      match TreeOf(e.value, depth, budget, fs)
      case Refused => RefusedAll
      case Encoded(tree, left) => Joined(Pair(JString(e.key), tree), EntryTreesOf(rest, depth, left, fs))
  }

  // ---- decoding --------------------------------------------------------------------------------------

  /** A decoded value and how many more nodes may follow. */
  datatype Decoded = Rejected | Decoded(value: Value, left: int)

  datatype DecodedItems = RejectedItems | DecodedItems(items: Values, left: int)

  datatype DecodedEntries = RejectedEntries | DecodedEntries(entries: Entries, left: int)

  function Scalar(tag: string, raw: Json, left: int, fs: Texts): Decoded {
    if tag == "bool" && raw.JBool? then Decoded(Bool(raw.flag), left)
    else if !raw.JString? then Rejected
    else if tag == "str" then Decoded(Str(raw.s), left)
    else if tag == "int" then
      var i := fs.readInt(raw.s);
      if i.Some? && fs.writeInt(i.value) == raw.s then Decoded(Int(i.value), left) else Rejected
    else if tag == "float" then
      var f := fs.read(raw.s);
      if f.Some? && fs.write(f.value) == raw.s then Decoded(Float(f.value), left) else Rejected
    else Rejected
  }

  /** `_value`: only the canonical tree of a value is accepted. */
  function ValueOf(tree: Json, depth: nat, nodes: int, fs: Texts): Decoded
    decreases tree
  {
    var left := nodes - 1;
    if depth > MAX_DEPTH || left < 0 || !tree.JArray? || tree.items.Nil? || !tree.items.head.JString? then Rejected
    else
      var tag := tree.items.head.s;
      if tag == "null" && tree.items.tail.Nil? then Decoded(Null, left)
      else if tree.items.tail.Nil? || tree.items.tail.tail.Cons? then Rejected
      else
        var raw := tree.items.tail.head;
        if tag == "tuple" && raw.JArray? then
          match ValuesOf(raw.items, depth + 1, left, fs)
          case RejectedItems => Rejected
          case DecodedItems(items, rest) => Decoded(Tuple(items), rest)
        else if tag == "map" && raw.JArray? then
          match EntriesOf(raw.items, depth + 1, left, fs, {})
          case RejectedEntries => Rejected
          case DecodedEntries(entries, rest) => Decoded(Map(entries), rest)
        else Scalar(tag, raw, left, fs)
  }

  function ValuesOf(trees: Jsons, depth: nat, nodes: int, fs: Texts): DecodedItems
    decreases trees
  {
    match trees
    case Nil => DecodedItems(Values.Nil, nodes)
    case Cons(tree, rest) =>
      match ValueOf(tree, depth, nodes, fs)
      case Rejected => RejectedItems
      case Decoded(v, left) =>
        match ValuesOf(rest, depth, left, fs)
        case RejectedItems => RejectedItems
        case DecodedItems(others, end) => DecodedItems(Values.Cons(v, others), end)
  }

  function EntriesOf(pairs: Jsons, depth: nat, nodes: int, fs: Texts, seen: set<string>): DecodedEntries
    decreases pairs
  {
    match pairs
    case Nil => DecodedEntries(Entries.Nil, nodes)
    case Cons(pair, rest) =>
      if !pair.JArray? || pair.items.Nil? || pair.items.tail.Nil? || pair.items.tail.tail.Cons? || !pair.items.head.JString?
         || pair.items.head.s in seen
      then RejectedEntries
      else
        var key := pair.items.head.s;
        match ValueOf(pair.items.tail.head, depth, nodes, fs)
        case Rejected => RejectedEntries
        case Decoded(v, left) =>
          match EntriesOf(rest, depth, left, fs, seen + {key})
          case RejectedEntries => RejectedEntries
          case DecodedEntries(others, end) => DecodedEntries(Entries.Cons(Entry(key, v), others), end)
  }

  // ---- the tree of a value -----------------------------------------------------------------------------

  /** The one tree of a portable value, without any budget. */
  function Shape(v: Value, fs: Texts): Json {
    match v
    case Null => JArray(Jsons.Cons(JString("null"), Jsons.Nil))
    case Bool(flag) => Tagged("bool", JBool(flag))
    case Int(i) => Tagged("int", JString(fs.writeInt(i)))
    case Float(f) => Tagged("float", JString(fs.write(f)))
    case Str(s) => Tagged("str", JString(s))
    case Tuple(items) => Tagged("tuple", JArray(Shapes(items, fs)))
    case Map(entries) => Tagged("map", JArray(EntryShapes(entries, fs)))
    case Foreign(_) => JNull
  }

  function Shapes(items: Values, fs: Texts): Jsons {
    match items
    case Nil => Jsons.Nil
    case Cons(v, rest) => Jsons.Cons(Shape(v, fs), Shapes(rest, fs))
  }

  function EntryShapes(entries: Entries, fs: Texts): Jsons {
    match entries
    case Nil => Jsons.Nil
    case Cons(e, rest) => Jsons.Cons(Pair(JString(e.key), Shape(e.value, fs)), EntryShapes(rest, fs))
  }

  /** The answer to a request of `nodes` nodes and `cost` bytes, if it is granted. */
  function Granted(ok: bool, tree: Json, nodes: nat, cost: nat, budget: Budget): Encoded {
    if ok && nodes <= budget.nodes && cost <= budget.bytes then Encoded(tree, Budget(budget.nodes - nodes, budget.bytes - cost))
    else Refused
  }

  function GrantedAll(ok: bool, trees: Jsons, nodes: nat, cost: nat, budget: Budget): EncodedAll {
    if ok && nodes <= budget.nodes && cost <= budget.bytes then EncodedAll(trees, Budget(budget.nodes - nodes, budget.bytes - cost))
    else RefusedAll
  }

  /** Encoding succeeds exactly on portable values the budget affords, gives their shape, and charges what they cost. */
  lemma {:induction false} EncodesExactly(v: Value, depth: nat, budget: Budget, fs: Texts)
    ensures TreeOf(v, depth, budget, fs) == Granted(Fits(v, depth), Shape(v, fs), Nodes(v), Cost(v, fs), budget)
    decreases v, 1
  {
    match v
    case Tuple(_) => EncodesTuple(v, depth, budget, fs);
    case Map(_) => EncodesMap(v, depth, budget, fs);
    case _ =>
  }

  lemma {:induction false} EncodesTuple(v: Value, depth: nat, budget: Budget, fs: Texts)
    requires v.Tuple?
    ensures TreeOf(v, depth, budget, fs) == Granted(Fits(v, depth), Shape(v, fs), Nodes(v), Cost(v, fs), budget)
    decreases v, 0
  {
    var left := Budget(budget.nodes - 1, budget.bytes - OwnCharge(v, fs));
    if left.nodes >= 0 && left.bytes >= 0 && depth <= MAX_DEPTH {
      var all := TreesOf(v.items, depth + 1, left, fs);
      assert TreeOf(v, depth, budget, fs) == Boxed("tuple", all);
      ItemsEncodeExactly(v.items, depth + 1, left, fs);
      BoxedGranted("tuple", ItemsFit(v.items, depth + 1), Shapes(v.items, fs), ItemNodes(v.items), ItemCosts(v.items, fs), left,
                   OwnCharge(v, fs));
    } else {
      assert TreeOf(v, depth, budget, fs) == Refused;
    }
  }

  /** Boxing moves the answer for the children to the node around them. */
  lemma BoxedGranted(tag: string, ok: bool, trees: Jsons, nodes: nat, cost: nat, left: Budget, own: nat)
    ensures Boxed(tag, GrantedAll(ok, trees, nodes, cost, left))
         == Granted(ok, Tagged(tag, JArray(trees)), 1 + nodes, own + cost, Budget(left.nodes + 1, left.bytes + own))
  {
  }

  lemma MapTree(v: Value, depth: nat, budget: Budget, fs: Texts, left: Budget)
    requires v.Map? && left == Budget(budget.nodes - 1, budget.bytes - (OwnCharge(v, fs) + KeysCharge(v.entries)))
    ensures TreeOf(v, depth, budget, fs)
         == if left.nodes >= 0 && left.bytes >= 0 && depth <= MAX_DEPTH
            then Boxed("map", EntryTreesOf(v.entries, depth + 1, left, fs))
            else Refused
  {
    hide OwnCharge, KeysCharge, EntryTreesOf, Boxed;
  }

  lemma {:induction false} EncodesMap(v: Value, depth: nat, budget: Budget, fs: Texts)
    requires v.Map?
    ensures TreeOf(v, depth, budget, fs) == Granted(Fits(v, depth), Shape(v, fs), Nodes(v), Cost(v, fs), budget)
    decreases v, 0
  {
    hide EntriesFit, EntryShapes, EntryNodes, EntryCosts, TreeOf, EntryTreesOf, OwnCharge, KeysCharge;
    var own := OwnCharge(v, fs) + KeysCharge(v.entries);
    var left := Budget(budget.nodes - 1, budget.bytes - own);
    MapTree(v, depth, budget, fs, left);
    if left.nodes >= 0 && left.bytes >= 0 && depth <= MAX_DEPTH {
      EntriesEncodeExactly(v.entries, depth + 1, left, fs);
      BoxedGranted("map", EntriesFit(v.entries, depth + 1), EntryShapes(v.entries, fs), EntryNodes(v.entries),
                   EntryCosts(v.entries, fs), left, own);
    }
  }

  lemma {:induction false} ItemsEncodeExactly(items: Values, depth: nat, budget: Budget, fs: Texts)
    requires budget.nodes >= 0 && budget.bytes >= 0
    ensures TreesOf(items, depth, budget, fs)
         == GrantedAll(ItemsFit(items, depth), Shapes(items, fs), ItemNodes(items), ItemCosts(items, fs), budget)
    decreases items, 2
  {
    match items
    case Nil =>
    case Cons(v, rest) =>
      EncodesExactly(v, depth, budget, fs);
      var first := TreeOf(v, depth, budget, fs);
      if first.Encoded? {
        ItemsEncodeExactly(rest, depth, first.left, fs);
      }
  }

  lemma {:induction false} EntriesEncodeExactly(entries: Entries, depth: nat, budget: Budget, fs: Texts)
    requires budget.nodes >= 0 && budget.bytes >= 0
    ensures EntryTreesOf(entries, depth, budget, fs)
         == GrantedAll(EntriesFit(entries, depth), EntryShapes(entries, fs), EntryNodes(entries), EntryCosts(entries, fs), budget)
    decreases entries, 2
  {
    match entries
    case Nil =>
    case Cons(e, rest) =>
      EncodesExactly(e.value, depth, budget, fs);
      var first := TreeOf(e.value, depth, budget, fs);
      if first.Encoded? {
        EntriesEncodeExactly(rest, depth, first.left, fs);
      }
  }

  // ---- decoding undoes encoding ---------------------------------------------------------------------------

  ghost predicate Unseen(entries: Entries, seen: set<string>) {
    forall key :: key in seen ==> !HasKey(entries, key)
  }

  /** The shape of a value is read back as that value, within exactly the same node budget. */
  lemma {:induction false} DecodesShape(v: Value, depth: nat, nodes: int, fs: Texts)
    requires Exact(fs) && Proper(v) && Fits(v, depth)
    ensures ValueOf(Shape(v, fs), depth, nodes, fs)
         == if Nodes(v) <= nodes then Decoded(v, nodes - Nodes(v)) else Rejected
    decreases v
  {
    match v
    case Tuple(items) =>
      if nodes >= 1 {
        ItemsDecodeShapes(items, depth + 1, nodes - 1, fs);
      }
    case Map(entries) =>
      if nodes >= 1 {
        EntriesDecodeShapes(entries, depth + 1, nodes - 1, fs, {});
      }
    case _ =>
  }

  lemma {:induction false} ItemsDecodeShapes(items: Values, depth: nat, nodes: int, fs: Texts)
    requires Exact(fs) && ItemsProper(items) && ItemsFit(items, depth) && nodes >= 0
    ensures ValuesOf(Shapes(items, fs), depth, nodes, fs)
         == if ItemNodes(items) <= nodes then DecodedItems(items, nodes - ItemNodes(items)) else RejectedItems
    decreases items
  {
    match items
    case Nil =>
    case Cons(v, rest) =>
      DecodesShape(v, depth, nodes, fs);
      if Nodes(v) <= nodes {
        ItemsDecodeShapes(rest, depth, nodes - Nodes(v), fs);
      }
  }

  lemma {:induction false} EntriesDecodeShapes(entries: Entries, depth: nat, nodes: int, fs: Texts, seen: set<string>)
    requires Exact(fs) && EntriesProper(entries) && EntriesFit(entries, depth) && nodes >= 0 && Unseen(entries, seen)
    ensures EntriesOf(EntryShapes(entries, fs), depth, nodes, fs, seen)
         == if EntryNodes(entries) <= nodes then DecodedEntries(entries, nodes - EntryNodes(entries)) else RejectedEntries
    decreases entries
  {
    match entries
    case Nil =>
    case Cons(e, rest) =>
      DecodesShape(e.value, depth, nodes, fs);
      if Nodes(e.value) <= nodes {
        EntriesDecodeShapes(rest, depth, nodes - Nodes(e.value), fs, seen + {e.key});
      }
  }

  /** Whatever tree is accepted is the shape of the value it gives: there is no second spelling. */
  lemma {:induction false} AcceptsOnlyShapes(tree: Json, depth: nat, nodes: int, fs: Texts)
    requires ValueOf(tree, depth, nodes, fs).Decoded?
    ensures var d := ValueOf(tree, depth, nodes, fs);
      && tree == Shape(d.value, fs) && Proper(d.value) && Fits(d.value, depth)
      && Nodes(d.value) <= nodes && d.left == nodes - Nodes(d.value)
    decreases tree
  {
    var tag := tree.items.head.s;
    if tree.items.tail.Cons? && tree.items.tail.head.JArray? {
      var raw := tree.items.tail.head;
      if tag == "tuple" {
        ItemsAcceptOnlyShapes(raw.items, depth + 1, nodes - 1, fs);
      } else if tag == "map" {
        EntriesAcceptOnlyShapes(raw.items, depth + 1, nodes - 1, fs, {});
      }
    }
  }

  lemma {:induction false} ItemsAcceptOnlyShapes(trees: Jsons, depth: nat, nodes: int, fs: Texts)
    requires ValuesOf(trees, depth, nodes, fs).DecodedItems? && nodes >= 0
    ensures var d := ValuesOf(trees, depth, nodes, fs);
      && trees == Shapes(d.items, fs) && ItemsProper(d.items) && ItemsFit(d.items, depth)
      && ItemNodes(d.items) <= nodes && d.left == nodes - ItemNodes(d.items)
    decreases trees
  {
    match trees
    case Nil =>
    case Cons(tree, rest) =>
      AcceptsOnlyShapes(tree, depth, nodes, fs);
      ItemsAcceptOnlyShapes(rest, depth, ValueOf(tree, depth, nodes, fs).left, fs);
  }

  lemma {:induction false} EntriesAcceptOnlyShapes(pairs: Jsons, depth: nat, nodes: int, fs: Texts, seen: set<string>)
    requires EntriesOf(pairs, depth, nodes, fs, seen).DecodedEntries? && nodes >= 0
    ensures var d := EntriesOf(pairs, depth, nodes, fs, seen);
      && pairs == EntryShapes(d.entries, fs) && EntriesProper(d.entries) && EntriesFit(d.entries, depth) && Unseen(d.entries, seen)
      && EntryNodes(d.entries) <= nodes && d.left == nodes - EntryNodes(d.entries)
    decreases pairs
  {
    match pairs
    case Nil =>
    case Cons(pair, rest) =>
      var tree := pair.items.tail.head;
      AcceptsOnlyShapes(tree, depth, nodes, fs);
      EntriesAcceptOnlyShapes(rest, depth, ValueOf(tree, depth, nodes, fs).left, fs, seen + {pair.items.head.s});
  }

  const FULL := Budget(MAX_NODES, MAX_BYTES)

  /** Every value the encoder accepts is decoded back to itself, with the same nodes to spare. */
  lemma RoundTrip(v: Value, depth: nat, budget: Budget, tree: Json, left: Budget, fs: Texts)
    requires Exact(fs) && Proper(v) && TreeOf(v, depth, budget, fs) == Encoded(tree, left)
    ensures ValueOf(tree, depth, budget.nodes, fs) == Decoded(v, left.nodes)
  {
    EncodesExactly(v, depth, budget, fs);
    DecodesShape(v, depth, budget.nodes, fs);
  }

  /** Every tree the decoder accepts is encoded back to itself, unless its value costs more bytes than allowed. */
  lemma Reencode(tree: Json, v: Value, left: int, depth: nat, budget: Budget, fs: Texts)
    requires ValueOf(tree, depth, budget.nodes, fs) == Decoded(v, left)
    ensures TreeOf(v, depth, budget, fs)
         == if Cost(v, fs) <= budget.bytes then Encoded(tree, Budget(left, budget.bytes - Cost(v, fs))) else Refused
  {
    AcceptsOnlyShapes(tree, depth, budget.nodes, fs);
    EncodesExactly(v, depth, budget, fs);
  }

  // ---- configuration lists ---------------------------------------------------------------------------------

  /** `plain` says the entry is exact Data on the CPU. */
  datatype Config = Config(key: int, value: Value, plain: bool)

  datatype Item = Item(key: int, value: Value)

  datatype Packed = Unpackable | Packed(entries: seq<Json>, left: Budget)

  datatype ReadItem = Unread | ReadItem(item: Item, left: int)

  datatype Unpacked = Unreadable | Unpacked(items: seq<Item>, left: int)

  function KeyBytes(key: int, fs: Texts): nat {
    fs.intCharge(key) + 16
  }

  function ItemsOf(configs: seq<Config>): (items: seq<Item>)
    ensures |items| == |configs| && forall i :: 0 <= i < |configs| ==> items[i] == Item(configs[i].key, configs[i].value)
  {
    seq(|configs|, i requires 0 <= i < |configs| => Item(configs[i].key, configs[i].value))
  }

  predicate KeyUsed(items: seq<Item>, key: int) {
    exists i :: 0 <= i < |items| && items[i].key == key
  }

  /** One more configuration after those packed; `accepts` is the validation of a configuration value. */
  function PackOne(front: Packed, used: seq<Item>, c: Config, accepts: Value -> bool, fs: Texts): Packed {
    if front.Unpackable? || c.key < 0 || KeyUsed(used, c.key) || !c.plain || !accepts(c.value) then Unpackable
    else
      match TreeOf(c.value, 0, Budget(front.left.nodes, front.left.bytes - KeyBytes(c.key, fs)), fs)
      case Refused => Unpackable
      case Encoded(tree, left) => Packed(front.entries + [Pair(JString(fs.writeInt(c.key)), tree)], left)
  }

  function Packs(configs: seq<Config>, accepts: Value -> bool, fs: Texts): Packed {
    if configs == [] then Packed([], FULL)
    else
      var n := |configs| - 1;
      PackOne(Packs(configs[..n], accepts, fs), ItemsOf(configs[..n]), configs[n], accepts, fs)
  }

  /** One entry of a document: a canonical unused key and a canonical accepted value. */
  function ReadOne(entry: Json, used: seq<Item>, nodes: int, accepts: Value -> bool, fs: Texts): ReadItem {
    if !entry.JArray? || entry.items.Nil? || entry.items.tail.Nil? || entry.items.tail.tail.Cons? || !entry.items.head.JString?
    then Unread
    else
      var key := fs.readInt(entry.items.head.s);
      if key.None? || key.value < 0 || fs.writeInt(key.value) != entry.items.head.s || KeyUsed(used, key.value) then Unread
      else
        match ValueOf(entry.items.tail.head, 0, nodes, fs)
        case Rejected => Unread
        case Decoded(v, left) => if accepts(v) then ReadItem(Item(key.value, v), left) else Unread
  }

  function UnpackOne(front: Unpacked, entry: Json, accepts: Value -> bool, fs: Texts): Unpacked {
    if front.Unreadable? then Unreadable
    else
      match ReadOne(entry, front.items, front.left, accepts, fs)
      case Unread => Unreadable
      case ReadItem(item, left) => Unpacked(front.items + [item], left)
  }

  function Unpacks(entries: seq<Json>, accepts: Value -> bool, fs: Texts): Unpacked {
    if entries == [] then Unpacked([], MAX_NODES)
    else UnpackOne(Unpacks(entries[..|entries| - 1], accepts, fs), entries[|entries| - 1], accepts, fs)
  }

  ghost predicate ProperConfigs(configs: seq<Config>) {
    forall i :: 0 <= i < |configs| ==> Proper(configs[i].value)
  }

  /** One packed configuration is read back. */
  lemma PackedOneReads(front: Packed, used: seq<Item>, c: Config, p: Packed, accepts: Value -> bool, fs: Texts) returns (entry: Json)
    requires Exact(fs) && Proper(c.value) && PackOne(front, used, c, accepts, fs) == p && p.Packed?
    ensures front.Packed? && p.entries == front.entries + [entry]
    ensures ReadOne(entry, used, front.left.nodes, accepts, fs) == ReadItem(Item(c.key, c.value), p.left.nodes)
  {
    var budget := Budget(front.left.nodes, front.left.bytes - KeyBytes(c.key, fs));
    var e := TreeOf(c.value, 0, budget, fs);
    RoundTrip(c.value, 0, budget, e.tree, e.left, fs);
    entry := Pair(JString(fs.writeInt(c.key)), e.tree);
  }

  lemma UnpacksMore(entries: seq<Json>, items: seq<Item>, nodes: int, entry: Json, item: Item, left: int,
                    accepts: Value -> bool, fs: Texts)
    requires Unpacks(entries, accepts, fs) == Unpacked(items, nodes)
    requires ReadOne(entry, items, nodes, accepts, fs) == ReadItem(item, left)
    ensures Unpacks(entries + [entry], accepts, fs) == Unpacked(items + [item], left)
  {
    assert (entries + [entry])[..|entries|] == entries;
  }

  lemma ItemsMore(configs: seq<Config>, c: Config)
    ensures ItemsOf(configs + [c]) == ItemsOf(configs) + [Item(c.key, c.value)]
  {
  }

  /** A packed list of configurations unpacks to its keys and values. */
  lemma {:induction false} ConfigsRoundTrip(configs: seq<Config>, p: Packed, accepts: Value -> bool, fs: Texts)
    requires Exact(fs) && ProperConfigs(configs) && Packs(configs, accepts, fs) == p && p.Packed?
    ensures Unpacks(p.entries, accepts, fs) == Unpacked(ItemsOf(configs), p.left.nodes)
  {
    if configs != [] {
      var n := |configs| - 1;
      var init, c, front := configs[..n], configs[n], Packs(configs[..n], accepts, fs);
      assert configs == init + [c];
      ItemsMore(init, c);
      var entry := PackedOneReads(front, ItemsOf(init), c, p, accepts, fs);
      ConfigsRoundTrip(init, front, accepts, fs);
      UnpacksMore(front.entries, ItemsOf(init), front.left.nodes, entry, Item(c.key, c.value), p.left.nodes, accepts, fs);
    }
  }

  function Plain(items: seq<Item>): (configs: seq<Config>)
    ensures |configs| == |items| && forall i :: 0 <= i < |items| ==> configs[i] == Config(items[i].key, items[i].value, true)
  {
    seq(|items|, i requires 0 <= i < |items| => Config(items[i].key, items[i].value, true))
  }

  function ConfigsCost(items: seq<Item>, fs: Texts): nat {
    if items == [] then 0
    else ConfigsCost(items[..|items| - 1], fs) + KeyBytes(items[|items| - 1].key, fs) + Cost(items[|items| - 1].value, fs)
  }

  function ConfigsNodes(items: seq<Item>): nat {
    if items == [] then 0 else ConfigsNodes(items[..|items| - 1]) + Nodes(items[|items| - 1].value)
  }

  /** Different keys that are not negative, accepted plain values that fit, and enough nodes and bytes for all of them. */
  ghost predicate Packable(configs: seq<Config>, accepts: Value -> bool, fs: Texts) {
    && (forall i :: 0 <= i < |configs| ==>
          configs[i].key >= 0 && configs[i].plain && accepts(configs[i].value) && Fits(configs[i].value, 0))
    && (forall i, j :: 0 <= i < j < |configs| ==> configs[i].key != configs[j].key)
    && ConfigsNodes(ItemsOf(configs)) <= MAX_NODES && ConfigsCost(ItemsOf(configs), fs) <= MAX_BYTES
  }

  /** The document has every key with the tree of its value, in order. */
  ghost predicate DocumentOf(entries: seq<Json>, configs: seq<Config>, fs: Texts) {
    && |entries| == |configs|
    && forall i :: 0 <= i < |configs| ==> entries[i] == Pair(JString(fs.writeInt(configs[i].key)), Shape(configs[i].value, fs))
  }

  lemma PackableMore(init: seq<Config>, c: Config, accepts: Value -> bool, fs: Texts)
    ensures Packable(init + [c], accepts, fs) <==>
              && Packable(init, accepts, fs) && c.key >= 0 && c.plain && accepts(c.value) && Fits(c.value, 0)
              && !KeyUsed(ItemsOf(init), c.key) && ConfigsNodes(ItemsOf(init)) + Nodes(c.value) <= MAX_NODES
              && ConfigsCost(ItemsOf(init), fs) + KeyBytes(c.key, fs) + Cost(c.value, fs) <= MAX_BYTES
  {
    hide Fits, Cost, Nodes;
    var all, items := init + [c], ItemsOf(init);
    PlainMore(items, Item(c.key, c.value), fs);
    ItemsMore(init, c);
    assert ItemsOf(all)[..|init|] == items;
    assert forall i :: 0 <= i < |init| ==> all[i] == init[i] && items[i].key == init[i].key;
    assert all[|init|] == c;
  }

  lemma DocumentMore(entries: seq<Json>, init: seq<Config>, c: Config, fs: Texts)
    requires DocumentOf(entries, init, fs)
    ensures DocumentOf(entries + [Pair(JString(fs.writeInt(c.key)), Shape(c.value, fs))], init + [c], fs)
  {
    hide Shape;
  }

  /** A list packs exactly if it is packable; its document is then that of the list, and what it took is known. */
  lemma {:induction false} PacksExactly(configs: seq<Config>, accepts: Value -> bool, fs: Texts)
    ensures Packs(configs, accepts, fs).Packed? <==> Packable(configs, accepts, fs)
    ensures var p := Packs(configs, accepts, fs);
      p.Packed? ==>
        && DocumentOf(p.entries, configs, fs)
        && p.left == Budget(MAX_NODES - ConfigsNodes(ItemsOf(configs)), MAX_BYTES - ConfigsCost(ItemsOf(configs), fs))
  {
    hide Packable, DocumentOf, Fits, Cost, Nodes, Shape, KeyUsed, PackOne, KeyBytes, ItemsOf, ConfigsNodes, ConfigsCost;
    if configs == [] {
      EmptyPacks(configs, accepts, fs);
    } else {
      var n := |configs| - 1;
      var init, c, front := configs[..n], configs[n], Packs(configs[..n], accepts, fs);
      assert configs == init + [c];
      PacksExactly(init, accepts, fs);
      PackableMore(init, c, accepts, fs);
      PlainMore(ItemsOf(init), Item(c.key, c.value), fs);
      ItemsMore(init, c);
      NodesMore(ItemsOf(init), Item(c.key, c.value));
      PackOneIs(front, ItemsOf(init), c, accepts, fs);
      if front.Packed? {
        DocumentMore(front.entries, init, c, fs);
      }
    }
  }

  lemma NodesMore(items: seq<Item>, last: Item)
    ensures ConfigsNodes(items + [last]) == ConfigsNodes(items) + Nodes(last.value)
  {
    hide Nodes;
    assert (items + [last])[..|items|] == items;
  }

  /** One more configuration is packed exactly if it is acceptable and what is left pays for it. */
  lemma PackOneIs(front: Packed, used: seq<Item>, c: Config, accepts: Value -> bool, fs: Texts)
    ensures var bytes := KeyBytes(c.key, fs) + Cost(c.value, fs);
      PackOne(front, used, c, accepts, fs)
      == if front.Packed? && c.key >= 0 && !KeyUsed(used, c.key) && c.plain && accepts(c.value) && Fits(c.value, 0)
            && Nodes(c.value) <= front.left.nodes && bytes <= front.left.bytes
         then Packed(front.entries + [Pair(JString(fs.writeInt(c.key)), Shape(c.value, fs))],
                     Budget(front.left.nodes - Nodes(c.value), front.left.bytes - bytes))
         else Unpackable
  {
    hide TreeOf, Fits, Cost, Nodes, Shape, KeyUsed, KeyBytes;
    if front.Packed? {
      EncodesExactly(c.value, 0, Budget(front.left.nodes, front.left.bytes - KeyBytes(c.key, fs)), fs);
    }
  }

  lemma EmptyPacks(configs: seq<Config>, accepts: Value -> bool, fs: Texts)
    requires configs == []
    ensures Packable(configs, accepts, fs) && DocumentOf([], configs, fs)
    ensures ConfigsNodes(ItemsOf(configs)) == 0 && ConfigsCost(ItemsOf(configs), fs) == 0
  {
    assert ItemsOf(configs) == [];
  }

  /** One entry that is read packs back to itself, if the budget pays for its value. */
  lemma ReadOnePacks(front: Packed, used: seq<Item>, entry: Json, item: Item, left: int, accepts: Value -> bool, fs: Texts)
    requires front.Packed? && ReadOne(entry, used, front.left.nodes, accepts, fs) == ReadItem(item, left)
    requires KeyBytes(item.key, fs) + Cost(item.value, fs) <= front.left.bytes
    ensures PackOne(front, used, Config(item.key, item.value, true), accepts, fs)
         == Packed(front.entries + [entry], Budget(left, front.left.bytes - KeyBytes(item.key, fs) - Cost(item.value, fs)))
  {
    Reencode(entry.items.tail.head, item.value, left, 0, Budget(front.left.nodes, front.left.bytes - KeyBytes(item.key, fs)), fs);
  }

  lemma PlainMore(items: seq<Item>, last: Item, fs: Texts)
    ensures var more := Plain(items + [last]);
      more == Plain(items) + [Config(last.key, last.value, true)] && ItemsOf(Plain(items)) == items
    ensures ConfigsCost(items + [last], fs) == ConfigsCost(items, fs) + KeyBytes(last.key, fs) + Cost(last.value, fs)
  {
    assert (items + [last])[..|items|] == items;
  }

  lemma PacksMore(configs: seq<Config>, front: Packed, c: Config, accepts: Value -> bool, fs: Texts)
    requires Packs(configs, accepts, fs) == front
    ensures Packs(configs + [c], accepts, fs) == PackOne(front, ItemsOf(configs), c, accepts, fs)
  {
    assert (configs + [c])[..|configs|] == configs;
  }

  /** A document that unpacks packs back to the same document, when its values are within the byte budget. */
  lemma {:induction false} ConfigsReencode(entries: seq<Json>, u: Unpacked, accepts: Value -> bool, fs: Texts)
    requires Unpacks(entries, accepts, fs) == u && u.Unpacked? && ConfigsCost(u.items, fs) <= MAX_BYTES
    ensures Packs(Plain(u.items), accepts, fs) == Packed(entries, Budget(u.left, MAX_BYTES - ConfigsCost(u.items, fs)))
  {
    hide PackOne, ReadOne;
    if entries != [] {
      var n := |entries| - 1;
      var front := Unpacks(entries[..n], accepts, fs);
      var last := u.items[|u.items| - 1];
      assert u.items == front.items + [last];
      PlainMore(front.items, last, fs);
      ConfigsReencode(entries[..n], front, accepts, fs);
      var packed := Packed(entries[..n], Budget(front.left, MAX_BYTES - ConfigsCost(front.items, fs)));
      assert entries == entries[..n] + [entries[n]];
      ReadOnePacks(packed, front.items, entries[n], last, u.left, accepts, fs);
      PacksMore(Plain(front.items), packed, Config(last.key, last.value, true), accepts, fs);
    }
  }

  /** A refused entry refuses the whole list. */
  lemma {:induction false} PacksStop(configs: seq<Config>, i: nat, accepts: Value -> bool, fs: Texts)
    requires i <= |configs| && Packs(configs[..i], accepts, fs).Unpackable?
    ensures Packs(configs, accepts, fs).Unpackable?
    decreases |configs|
  {
    if i < |configs| {
      assert configs[..|configs| - 1][..i] == configs[..i];
      PacksStop(configs[..|configs| - 1], i, accepts, fs);
    } else {
      assert configs[..i] == configs;
    }
  }

  lemma NothingUsed()
    ensures forall key :: !KeyUsed(ItemsOf([]), key)
  {
  }

  lemma KeysMore(configs: seq<Config>, c: Config, seen: set<int>)
    requires forall key :: key in seen <==> KeyUsed(ItemsOf(configs), key)
    ensures forall key :: key in seen + {c.key} <==> KeyUsed(ItemsOf(configs + [c]), key)
  {
    var items := ItemsOf(configs + [c]);
    assert items == ItemsOf(configs) + [Item(c.key, c.value)];
    assert items[|configs|].key == c.key;
    forall key | KeyUsed(ItemsOf(configs), key)
      ensures KeyUsed(items, key)
    {
      var i :| 0 <= i < |configs| && ItemsOf(configs)[i].key == key;
      assert items[i].key == key;
    }
  }

  /** Configuration keys are non-negative and pairwise different, whatever the document. */
  lemma {:induction false} UnpackedKeys(entries: seq<Json>, accepts: Value -> bool, fs: Texts)
    requires Unpacks(entries, accepts, fs).Unpacked?
    ensures var items := Unpacks(entries, accepts, fs).items;
      && (forall i :: 0 <= i < |items| ==> items[i].key >= 0 && accepts(items[i].value))
      && (forall i, j :: 0 <= i < j < |items| ==> items[i].key != items[j].key)
  {
    if entries != [] {
      UnpackedKeys(entries[..|entries| - 1], accepts, fs);
      var front := Unpacks(entries[..|entries| - 1], accepts, fs).items;
      assert forall i :: 0 <= i < |front| ==> KeyUsed(front, front[i].key);
    }
  }

  /** One configuration; the keys seen so far are those used. */
  method PackConfig(front: Packed, seen: set<int>, ghost used: seq<Item>, c: Config, accepts: Value -> bool, fs: Texts)
    returns (next: Packed)
    requires front.Packed? && forall key :: key in seen <==> KeyUsed(used, key)
    ensures next == PackOne(front, used, c, accepts, fs)
  {
    hide KeyUsed, TreeOf;
    if c.key < 0 || c.key in seen || !c.plain || !accepts(c.value) {
      return Unpackable;
    }
    var encoded := TreeOf(c.value, 0, Budget(front.left.nodes, front.left.bytes - KeyBytes(c.key, fs)), fs);
    if encoded.Refused? {
      return Unpackable;
    }
    next := Packed(front.entries + [Pair(JString(fs.writeInt(c.key)), encoded.tree)], encoded.left);
  }

  /** `encode_configs` up to its JSON text. */
  method EncodeConfigs(configs: seq<Config>, accepts: Value -> bool, fs: Texts) returns (r: Result<seq<Json>>)
    ensures match Packs(configs, accepts, fs)
      case Packed(entries, _) => r == Success(entries)
      case Unpackable => r == Failure(Contract)
    ensures r.Success? <==> Packable(configs, accepts, fs)
    ensures r.Success? ==> DocumentOf(r.value, configs, fs)
  {
    hide PackOne, KeyUsed, Packable, DocumentOf;
    PacksExactly(configs, accepts, fs);
    var packed, seen: set<int> := Packed([], FULL), {};
    NothingUsed();
    for i := 0 to |configs|
      invariant packed.Packed? && Packs(configs[..i], accepts, fs) == packed
      invariant forall key :: key in seen <==> KeyUsed(ItemsOf(configs[..i]), key)
    {
      var c := configs[i];
      assert configs[..i + 1] == configs[..i] + [c];
      PacksMore(configs[..i], packed, c, accepts, fs);
      packed := PackConfig(packed, seen, ItemsOf(configs[..i]), c, accepts, fs);
      if packed.Unpackable? {
        PacksStop(configs, i + 1, accepts, fs);
        return Failure(Contract);
      }
      KeysMore(configs[..i], c, seen);
      seen := seen + {c.key};
    }
    assert configs[..|configs|] == configs;
    r := Success(packed.entries);
  }

  lemma {:induction false} UnpacksStop(entries: seq<Json>, i: nat, accepts: Value -> bool, fs: Texts)
    requires i <= |entries| && Unpacks(entries[..i], accepts, fs).Unreadable?
    ensures Unpacks(entries, accepts, fs).Unreadable?
    decreases |entries|
  {
    if i < |entries| {
      assert entries[..|entries| - 1][..i] == entries[..i];
      UnpacksStop(entries[..|entries| - 1], i, accepts, fs);
    } else {
      assert entries[..i] == entries;
    }
  }

  /** `decode_configs` from its JSON tree. */
  method DecodeConfigs(entries: seq<Json>, accepts: Value -> bool, fs: Texts) returns (r: Result<seq<Item>>)
    ensures match Unpacks(entries, accepts, fs)
      case Unpacked(items, _) => r == Success(items)
      case Unreadable => r == Failure(Contract)
  {
    var result: seq<Item>, nodes := [], MAX_NODES;
    for i := 0 to |entries|
      invariant Unpacks(entries[..i], accepts, fs) == Unpacked(result, nodes)
    {
      assert entries[..i + 1][..i] == entries[..i];
      var read := ReadOne(entries[i], result, nodes, accepts, fs);
      if read.Unread? {
        UnpacksStop(entries, i + 1, accepts, fs);
        return Failure(Contract);
      }
      result, nodes := result + [read.item], read.left;
    }
    assert entries[..|entries|] == entries;
    r := Success(result);
  }
}
