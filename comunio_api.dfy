/**
 * The pure adapter rules of backend/comunio_api.py: budget and rule parsing,
 * the salary amount in a news title, and what one news item contributes to the
 * balance deltas and to the transfer events. The HTTP requests and the
 * pagination loops around them are not modelled; their decoded items are the
 * inputs here.
 */
module ComunioApi {
  import opened PyBuiltins
  import opened Models

  /** `str(x)`: scalars as Python prints them; the text of a list or a dict is `repr(x)`. */
  function Str(j: Json, repr: Json -> string): string
  {
    match StrOfScalar(j)
    case Some(s) => s
    case None => repr(j)
  }

  // ---------------------------------------------------------------------------
  // parse_budget_from_user_info

  /** The budget value itself: ints as they are, anything else through its digits and minus signs. */
  function BudgetOf(raw: Json, repr: Json -> string): (r: Result<Option<int>>)
    ensures raw == JNull ==> r == Ok(None)
    ensures IsInt(raw) ==> r == Ok(Some(IntOf(raw)))
  {
    if raw == JNull then Ok(None)
    else if IsInt(raw) then Ok(Some(IntOf(raw)))
    else
      var s := KeepDigitsAndMinus(Str(raw, repr));
      if s == "" || s == "-" then Ok(None)
      else
        match IntFromText(s)
        case Some(i) => Ok(Some(i))
        case None => Raise(ValueError)
  }

  /** `parse_budget_from_user_info(data)`: a top-level `budget`, else `data["user"]["budget"]`. */
  function ParseBudget(data: map<string, Json>, repr: Json -> string): (r: Result<Option<int>>)
    ensures Get(data, "budget") != JNull ==> r == BudgetOf(Get(data, "budget"), repr)
    ensures Get(data, "budget") == JNull && "user" !in data ==> r == Ok(None)
    ensures Get(data, "budget") == JNull && "user" in data && data["user"].JObject? ==>
      r == BudgetOf(Get(data["user"].fields, "budget"), repr)
    ensures Get(data, "budget") == JNull && "user" in data && !data["user"].JObject? ==> r == Raise(AttributeError)
  {
    var top := Get(data, "budget");
    if top == JNull && "user" in data then
      (if data["user"].JObject? then BudgetOf(Get(data["user"].fields, "budget"), repr) else Raise(AttributeError))
    else BudgetOf(top, repr)
  }

  /**
   * A non-int budget is read through its digits and minus signs: no digit gives None, a minus
   * anywhere but in front raises ValueError, and otherwise the signed number is the budget.
   */
  lemma BudgetFromText(raw: Json, repr: Json -> string)
    requires raw != JNull && !IsInt(raw)
    ensures var s := KeepDigitsAndMinus(Str(raw, repr));
      BudgetOf(raw, repr) ==
        if s == "" || s == "-" then Ok(None)
        else if IsSignedDigits(s) then Ok(Some(SignedDigitsValue(s)))
        else Raise(ValueError)
  {
    IntFromDigitsAndMinus(KeepDigitsAndMinus(Str(raw, repr)));
  }

  /** Thousands separators and the currency sign are dropped. */
  lemma BudgetIgnoresSeparators(raw: Json, repr: Json -> string, d: string)
    requires raw != JNull && !IsInt(raw) && d != [] && AllDigits(d)
    requires KeepDigitsAndMinus(Str(raw, repr)) == d
    ensures BudgetOf(raw, repr) == Ok(Some(DecimalValue(d) as int))
  {
    BudgetFromText(raw, repr);
  }

  // ---------------------------------------------------------------------------
  // parse_community_rules

  /** The rules when the community details say nothing usable: salaries off, no credit factor, credit off. */
  const DefaultRules: LeagueMeta := LeagueMeta(false, JNull, true, None)

  /** `str(sal).lower() in ("true", "1", "yes")` */
  predicate SalariesFlag(sal: Json, repr: Json -> string)
  {
    var l := Lower(Str(sal, repr));
    l == "true" || l == "1" || l == "yes"
  }

  /** `parse_community_rules(details)` */
  function ParseCommunityRules(details: Json, repr: Json -> string): (r: Result<LeagueMeta>)
    ensures !Truthy(details) ==> r == Ok(DefaultRules)
    ensures details.JObject? && details.fields != map[] && !Get(details.fields, "rules").JObject? ==> r == Ok(DefaultRules)
    ensures Truthy(details) && !details.JObject? ==> r == Raise(AttributeError)
    ensures r.Ok? ==> r.value.statementUserId.None?
  {
    if !Truthy(details) then Ok(DefaultRules)
    else if !details.JObject? then Raise(AttributeError)
    else
      var rules := Get(details.fields, "rules");
      if !rules.JObject? then Ok(DefaultRules)
      else
        var nested := Get(rules.fields, "items");
        var items := if nested.JObject? then nested.fields else rules.fields;
        Ok(LeagueMeta(
          SalariesFlag(Get(items, "salaries"), repr),
          Or(Get(items, "creditfactor"), Get(items, "creditFactor")),
          if "creditFactorDisabled" in items then Truthy(items["creditFactorDisabled"]) else true,
          None))
  }

  /** Which rule dictionary is read: `rules.items` when it is a dict, else `rules` itself. */
  lemma RulesReadFrom(details: map<string, Json>, rules: map<string, Json>, repr: Json -> string)
    requires details != map[] && Get(details, "rules") == JObject(rules)
    ensures var items := if Get(rules, "items").JObject? then Get(rules, "items").fields else rules;
      var r := ParseCommunityRules(JObject(details), repr);
      && r.Ok?
      && (r.value.salariesEnabled <==> SalariesFlag(Get(items, "salaries"), repr))
      && r.value.creditFactor == Or(Get(items, "creditfactor"), Get(items, "creditFactor"))
      && (r.value.creditFactorDisabled <==> "creditFactorDisabled" !in items || Truthy(items["creditFactorDisabled"]))
  {
  }

  /** The flag is read case-insensitively from `str()`: True, 1 and "yes" enable salaries; None and 0 do not. */
  lemma SalariesFlagValues(repr: Json -> string)
    ensures SalariesFlag(JBool(true), repr) && SalariesFlag(JInt(1), repr)
    ensures !SalariesFlag(JBool(false), repr) && !SalariesFlag(JNull, repr) && !SalariesFlag(JInt(0), repr)
  {
    assert Lower("True") == "true";
    assert NatToDecimal(1) == "1";
    assert Lower("1") == "1";
    assert |Lower("False")| == 5;
    assert |Lower("None")| == 4;
    assert NatToDecimal(0) == "0";
    assert Lower("0") == "0";
  }

  // ---------------------------------------------------------------------------
  // _parse_salary_amount_from_title

  /** The character class `[\d.,]`. */
  predicate AmountChar(c: char) { IsDigit(c) || c == '.' || c == ',' }

  /** The end of the run of amount characters that starts at `i`. */
  function RunEnd(t: string, i: nat): (j: nat)
    requires i <= |t|
    ensures i <= j <= |t|
    ensures i < |t| && AmountChar(t[i]) ==> i < j
    decreases |t| - i
  {
    if i < |t| && AmountChar(t[i]) then RunEnd(t, i + 1) else i
  }

  /** `\s*€` matches at `j`. */
  predicate EuroAt(t: string, j: nat)
    requires j <= |t|
    decreases |t| - j
  {
    j < |t| && (t[j] == '€' || (IsSpace(t[j]) && EuroAt(t, j + 1)))
  }

  /**
   * `re.search(r"([\d.,]+)\s*€", t[i..])`, group 1. A match can only start where a run starts, and
   * every start inside a run ends the run at the same place, so the search moves run by run.
   */
  function AmountMatch(t: string, i: nat): Option<string>
    requires i <= |t|
    decreases |t| - i
  {
    if i == |t| then None
    else if AmountChar(t[i]) then
      var j := RunEnd(t, i);
      if EuroAt(t, j) then Some(t[i..j]) else AmountMatch(t, j)
    else AmountMatch(t, i + 1)
  }

  /** `s.replace(".", "").replace(",", ".")` */
  function Normalise(s: string): (r: string)
    ensures |r| <= |s|
    ensures (forall k :: 0 <= k < |s| ==> AmountChar(s[k])) ==> forall k :: 0 <= k < |r| ==> IsDigit(r[k]) || r[k] == '.'
  {
    if s == [] then []
    else (if s[0] == '.' then [] else if s[0] == ',' then ['.'] else [s[0]]) + Normalise(s[1..])
  }

  /** The position of the first `.` of `s`, or `|s|`. */
  function FirstDot(s: string): (i: nat)
    ensures i <= |s|
    ensures forall k :: 0 <= k < i ==> s[k] != '.'
    ensures i < |s| ==> s[i] == '.'
  {
    if s == [] || s[0] == '.' then 0 else 1 + FirstDot(s[1..])
  }

  /**
   * `int(float(s))` for a text of digits and points: a point at most once and a digit somewhere,
   * else ValueError (None). The value is the integer part, as the float truncates toward zero.
   */
  function TruncatedFloat(s: string): (r: Option<int>)
    requires forall k :: 0 <= k < |s| ==> IsDigit(s[k]) || s[k] == '.'
    ensures r.Some? ==> r.value >= 0
  {
    var i := FirstDot(s);
    var whole := s[..i];
    var frac := if i < |s| then s[i + 1..] else [];
    assert AllDigits(whole);
    if (whole != [] || frac != []) && AllDigits(frac) then Some(DecimalValue(whole) as int) else None
  }

  /** `_parse_salary_amount_from_title(title)` */
  function ParseSalaryAmount(title: string): (r: Option<int>)
    ensures r.Some? ==> r.value >= 0
  {
    match AmountMatch(title, 0)
    case None => None
    case Some(g) =>
      AmountMatchIsAmount(title, 0);
      TruncatedFloat(Normalise(g))
  }

  lemma {:induction false} RunEndIsRun(t: string, i: nat)
    requires i <= |t|
    ensures forall k :: i <= k < RunEnd(t, i) ==> AmountChar(t[k])
    decreases |t| - i
  {
    if i < |t| && AmountChar(t[i]) {
      RunEndIsRun(t, i + 1);
    }
  }

  lemma {:induction false} AmountMatchIsAmount(t: string, i: nat)
    requires i <= |t|
    ensures AmountMatch(t, i).Some? ==> forall k :: 0 <= k < |AmountMatch(t, i).value| ==> AmountChar(AmountMatch(t, i).value[k])
    decreases |t| - i
  {
    if i < |t| {
      if AmountChar(t[i]) {
        RunEndIsRun(t, i);
        if !EuroAt(t, RunEnd(t, i)) {
          AmountMatchIsAmount(t, RunEnd(t, i));
        }
      } else {
        AmountMatchIsAmount(t, i + 1);
      }
    }
  }

  lemma {:induction false} RunEndAt(t: string, i: nat, j: nat)
    requires i <= j <= |t|
    requires forall k :: i <= k < j ==> AmountChar(t[k])
    requires j == |t| || !AmountChar(t[j])
    ensures RunEnd(t, i) == j
    decreases j - i
  {
    if i < j {
      RunEndAt(t, i + 1, j);
    }
  }

  lemma {:induction false} NoEuroAt(t: string, j: nat)
    requires j <= |t|
    requires forall k :: j <= k < |t| ==> t[k] != '€'
    ensures !EuroAt(t, j)
    decreases |t| - j
  {
    if j < |t| {
      NoEuroAt(t, j + 1);
    }
  }

  lemma {:induction false} NoEuroNoMatch(t: string, i: nat)
    requires i <= |t|
    requires forall k :: i <= k < |t| ==> t[k] != '€'
    ensures AmountMatch(t, i) == None
    decreases |t| - i
  {
    if i < |t| {
      if AmountChar(t[i]) {
        NoEuroAt(t, RunEnd(t, i));
        NoEuroNoMatch(t, RunEnd(t, i));
      } else {
        NoEuroNoMatch(t, i + 1);
      }
    }
  }

  /** A title without a euro sign carries no amount. */
  lemma NoEuroNoAmount(title: string)
    requires forall k :: 0 <= k < |title| ==> title[k] != '€'
    ensures ParseSalaryAmount(title) == None
  {
    NoEuroNoMatch(title, 0);
  }

  lemma {:induction false} NormaliseDigits(d: string)
    requires AllDigits(d)
    ensures Normalise(d) == d
  {
    if d != [] {
      NormaliseDigits(d[1..]);
    }
  }

  lemma {:induction false} NormaliseGrouped(a: string, b: string)
    requires AllDigits(a) && AllDigits(b)
    ensures Normalise(a + "." + b) == a + b
    decreases |a|
  {
    var s := a + "." + b;
    if a == [] {
      assert s[0] == '.' && s[1..] == b;
      NormaliseDigits(b);
    } else {
      assert s[0] == a[0] && IsDigit(a[0]);
      assert s[1..] == a[1..] + "." + b;
      NormaliseGrouped(a[1..], b);
      assert Normalise(s) == [a[0]] + (a[1..] + b);
      assert a + b == [a[0]] + (a[1..] + b);
    }
  }

  lemma {:induction false} FirstDotOfDigits(d: string)
    requires AllDigits(d)
    ensures FirstDot(d) == |d|
  {
    if d != [] {
      FirstDotOfDigits(d[1..]);
    }
  }

  lemma TruncatedFloatDigits(d: string)
    requires d != [] && AllDigits(d)
    ensures TruncatedFloat(d) == Some(DecimalValue(d) as int)
  {
    FirstDotOfDigits(d);
    assert d[..|d|] == d;
  }

  /**
   * A title that opens with an amount written with a thousands point, then white space and the euro
   * sign: the points are dropped and the digits read as one number.
   */
  lemma AmountWithThousandsPoint(title: string, a: string, b: string, rest: string)
    requires a != [] && b != [] && AllDigits(a) && AllDigits(b)
    requires title == a + "." + b + " €" + rest
    ensures ParseSalaryAmount(title) == Some(DecimalValue(a + b) as int)
  {
    var j := |a| + 1 + |b|;
    assert forall k :: 0 <= k < j ==> AmountChar(title[k]) by {
      forall k | 0 <= k < j
        ensures AmountChar(title[k])
      {
        if k < |a| {
          assert title[k] == a[k];
        } else if k > |a| {
          assert title[k] == b[k - |a| - 1];
        }
      }
    }
    assert title[j] == ' ' && title[j + 1] == '€';
    RunEndAt(title, 0, j);
    assert EuroAt(title, j);
    assert title[0..j] == a + "." + b;
    NormaliseGrouped(a, b);
    TruncatedFloatDigits(a + b);
  }

  /** The example of the docstring: "61.830 € Spielergehälter …" is 61830. */
  lemma SalaryTitleExample(title: string, rest: string)
    requires title == "61.830 €" + rest
    ensures ParseSalaryAmount(title) == Some(61830)
  {
    assert title == "61" + "." + "830" + " €" + rest;
    AmountWithThousandsPoint(title, "61", "830", rest);
    assert "61" + "830" == "61830";
    assert DecimalValue("61830") == 61830 by {
      assert "61830"[..4] == "6183";
      assert "6183"[..3] == "618";
      assert "618"[..2] == "61";
      assert "61"[..1] == "6";
      assert "6"[..0] == "";
    }
  }

  // ---------------------------------------------------------------------------
  // Balance deltas of one transfer item

  /** The kinds of transfer item, in the order the news message is read. */
  const TRANSFER_KEYS: seq<string> := ["FROM_COMPUTER", "TO_COMPUTER", "BETWEEN_USERS", "EXCHANGES"]

  /** `x == COMPUTER_USER_ID` for a decoded value: 1, 1.0 and True all compare equal to 1. */
  predicate IsComputer(j: Json)
  {
    j == JInt(COMPUTER_USER_ID) || j == JBool(true) || (j.JFloat? && j.value == 1.0)
  }

  /** `u = item.get(side) or {}; u.get("id") if isinstance(u, dict) else None` */
  function PartyId(item: map<string, Json>, side: string): Json
  {
    var u := Or(Get(item, side), JObject(map[]));
    if u.JObject? then Get(u.fields, "id") else JNull
  }

  /** One `deltas.append((int(uid), amount))`, skipped for a missing id and for the computer. */
  function DeltaFor(uid: Json, amount: int): (r: Result<seq<(int, int)>>)
    ensures uid == JNull || IsComputer(uid) ==> r == Ok([])
    ensures uid.JInt? && uid.i != COMPUTER_USER_ID ==> r == Ok([(uid.i, amount)])
    ensures r.Ok? ==> |r.value| <= 1 && forall k :: 0 <= k < |r.value| ==> r.value[k].1 == amount
  {
    if uid == JNull || IsComputer(uid) then Ok([])
    else
      match PyInt(uid)
      case Ok(u) => Ok([(u, amount)])
      case Raise(e) => Raise(e)
  }

  /** The deltas of one item of kind `key`: the buyer pays and the seller receives, reversed for EXCHANGES. */
  function ItemDeltas(key: string, item: Json): Result<seq<(int, int)>>
  {
    if !item.JObject? then Ok([])
    else
      match PyInt(Or(Get(item.fields, "price"), JInt(0)))
      case Raise(e) => Raise(e)
      case Ok(price) =>
        var fromId := PartyId(item.fields, "from");
        var toId := PartyId(item.fields, "to");
        if key == "EXCHANGES" then Then(DeltaFor(fromId, -price), DeltaFor(toId, price))
        else Then(DeltaFor(toId, -price), DeltaFor(fromId, price))
  }

  function DeltaTotal(ds: seq<(int, int)>): int
  {
    if ds == [] then 0 else DeltaTotal(ds[..|ds| - 1]) + ds[|ds| - 1].1
  }

  lemma {:induction false} DeltaTotalAppend(a: seq<(int, int)>, b: seq<(int, int)>)
    ensures DeltaTotal(a + b) == DeltaTotal(a) + DeltaTotal(b)
  {
    if b != [] {
      assert (a + b)[..|a + b| - 1] == a + b[..|b| - 1];
      DeltaTotalAppend(a, b[..|b| - 1]);
    } else {
      assert a + b == a;
    }
  }

  /** Whether the item names two managers by int ids, neither of them the computer. */
  predicate BetweenManagers(item: Json)
  {
    && item.JObject?
    && PartyId(item.fields, "from").JInt? && PartyId(item.fields, "from").i != COMPUTER_USER_ID
    && PartyId(item.fields, "to").JInt? && PartyId(item.fields, "to").i != COMPUTER_USER_ID
  }

  /**
   * The sign convention: outside EXCHANGES the buyer (`to`) is charged the price and the seller
   * (`from`) is credited; EXCHANGES reverses both signs.
   */
  lemma ItemDeltasSigns(key: string, item: Json)
    requires BetweenManagers(item)
    ensures var buyer := PartyId(item.fields, "to").i;
      var seller := PartyId(item.fields, "from").i;
      var p := PyInt(Or(Get(item.fields, "price"), JInt(0)));
      && (p.Raise? ==> ItemDeltas(key, item) == Raise(p.error))
      && (p.Ok? && key != "EXCHANGES" ==> ItemDeltas(key, item) == Ok([(buyer, -p.value), (seller, p.value)]))
      && (p.Ok? && key == "EXCHANGES" ==> ItemDeltas(key, item) == Ok([(seller, -p.value), (buyer, p.value)]))
  {
    var buyer := PartyId(item.fields, "to").i;
    var seller := PartyId(item.fields, "from").i;
    var p := PyInt(Or(Get(item.fields, "price"), JInt(0)));
    if p.Ok? {
      assert DeltaFor(JInt(buyer), -p.value) == Ok([(buyer, -p.value)]);
      assert DeltaFor(JInt(seller), p.value) == Ok([(seller, p.value)]);
      assert DeltaFor(JInt(seller), -p.value) == Ok([(seller, -p.value)]);
      assert DeltaFor(JInt(buyer), p.value) == Ok([(buyer, p.value)]);
      assert [(buyer, -p.value)] + [(seller, p.value)] == [(buyer, -p.value), (seller, p.value)];
      assert [(seller, -p.value)] + [(buyer, p.value)] == [(seller, -p.value), (buyer, p.value)];
      assert ItemDeltas(key, item) == if key == "EXCHANGES"
        then Then(DeltaFor(JInt(seller), -p.value), DeltaFor(JInt(buyer), p.value))
        else Then(DeltaFor(JInt(buyer), -p.value), DeltaFor(JInt(seller), p.value));
    }
  }

  /** Between two managers, one item moves money from one to the other: its deltas sum to zero. */
  lemma ItemDeltasConserve(key: string, item: Json)
    requires BetweenManagers(item)
    requires ItemDeltas(key, item).Ok?
    ensures DeltaTotal(ItemDeltas(key, item).value) == 0
  {
    ItemDeltasSigns(key, item);
    var ds := ItemDeltas(key, item).value;
    assert |ds| == 2 && ds[0].1 == -ds[1].1;
    assert ds[..1][..0] == [];
    assert DeltaTotal(ds[..1]) == ds[0].1;
  }

  /** The computer's side of an item and a side without an id are left out. */
  lemma ItemDeltasSkipComputer(key: string, item: Json)
    requires item.JObject?
    requires var f := PartyId(item.fields, "from"); f == JNull || IsComputer(f)
    requires var t := PartyId(item.fields, "to"); t == JNull || IsComputer(t)
    ensures ItemDeltas(key, item).Ok? ==> ItemDeltas(key, item).value == []
  {
  }

  /** `msg.get(key) or []` iterated: a list gives its items, a dict or a text only its keys or characters, which are skipped. */
  function ItemsOf(v: Json): (r: Result<seq<Json>>)
    ensures v.JList? ==> r == Ok(v.items)
    ensures !Truthy(v) ==> r == Ok([])
  {
    if v.JList? then Ok(v.items)
    else if !Truthy(v) || v.JObject? || v.JStr? then Ok([])
    else Raise(TypeError)
  }

  /** The deltas of the items, in order. */
  function ItemsDeltas(key: string, items: seq<Json>): Result<seq<(int, int)>>
  {
    if items == [] then Ok([]) else Then(ItemsDeltas(key, items[..|items| - 1]), ItemDeltas(key, items[|items| - 1]))
  }

  /** The deltas of the item lists under `keys` of the message, in that order. */
  function KeysDeltas(msg: map<string, Json>, keys: seq<string>): Result<seq<(int, int)>>
  {
    if keys == [] then Ok([])
    else
      var last := keys[|keys| - 1];
      Then(KeysDeltas(msg, keys[..|keys| - 1]),
        match ItemsOf(Or(Get(msg, last), JList([])))
        case Raise(e) => Raise(e)
        case Ok(items) => ItemsDeltas(last, items))
  }

  /** The deltas of one TRANSACTION_TRANSFER message (`msg = entry.get("message") or {}`). */
  function MessageDeltas(message: Json): Result<seq<(int, int)>>
  {
    var msg := Or(message, JObject(map[]));
    if !msg.JObject? then Raise(AttributeError) else KeysDeltas(msg.fields, TRANSFER_KEYS)
  }

  /** The inner loop over the items of one kind. */
  method CollectItemDeltas(key: string, items: seq<Json>) returns (r: Result<seq<(int, int)>>)
    ensures r == ItemsDeltas(key, items)
  {
    var deltas: seq<(int, int)> := [];
    var i := 0;
    while i < |items|
      invariant 0 <= i <= |items|
      invariant ItemsDeltas(key, items[..i]) == Ok(deltas)
    {
      assert items[..i + 1][..i] == items[..i];
      var d := ItemDeltas(key, items[i]);
      if d.Raise? {
        ItemsPrefixRaises(key, items, i + 1);
        return d;
      }
      deltas := deltas + d.value;
      i := i + 1;
    }
    assert items[..i] == items;
    r := Ok(deltas);
  }

  lemma {:induction false} ItemsPrefixRaises(key: string, items: seq<Json>, n: nat)
    requires n <= |items|
    requires ItemsDeltas(key, items[..n]).Raise?
    ensures ItemsDeltas(key, items) == ItemsDeltas(key, items[..n])
    decreases |items| - n
  {
    if n < |items| {
      assert items[..n + 1][..n] == items[..n];
      ItemsPrefixRaises(key, items, n + 1);
    } else {
      assert items[..n] == items;
    }
  }

  /** The loops over the four item kinds and their items in `get_news_balance_deltas_since`. */
  method CollectTransferDeltas(message: Json) returns (r: Result<seq<(int, int)>>)
    ensures r == MessageDeltas(message)
  {
    var msg := Or(message, JObject(map[]));
    if !msg.JObject? {
      return Raise(AttributeError);
    }
    var deltas: seq<(int, int)> := [];
    var n := 0;
    while n < |TRANSFER_KEYS|
      invariant 0 <= n <= |TRANSFER_KEYS|
      invariant KeysDeltas(msg.fields, TRANSFER_KEYS[..n]) == Ok(deltas)
    {
      var key := TRANSFER_KEYS[n];
      assert TRANSFER_KEYS[..n + 1][..n] == TRANSFER_KEYS[..n];
      var items := ItemsOf(Or(Get(msg.fields, key), JList([])));
      if items.Raise? {
        PrefixRaises(msg.fields, TRANSFER_KEYS, n + 1);
        return Raise(items.error);
      }
      var d := CollectItemDeltas(key, items.value);
      if d.Raise? {
        PrefixRaises(msg.fields, TRANSFER_KEYS, n + 1);
        return d;
      }
      deltas := deltas + d.value;
      n := n + 1;
    }
    assert TRANSFER_KEYS[..n] == TRANSFER_KEYS;
    r := Ok(deltas);
  }

  /** Once the items of some kind raise, the whole message raises. */
  lemma {:induction false} PrefixRaises(msg: map<string, Json>, keys: seq<string>, n: nat)
    requires n <= |keys|
    requires KeysDeltas(msg, keys[..n]).Raise?
    ensures KeysDeltas(msg, keys) == KeysDeltas(msg, keys[..n])
    decreases |keys| - n
  {
    if n < |keys| {
      assert keys[..n + 1][..n] == keys[..n];
      PrefixRaises(msg, keys, n + 1);
    } else {
      assert keys[..n] == keys;
    }
  }

  lemma {:induction false} ItemsDeltasConserve(key: string, items: seq<Json>)
    requires forall k :: 0 <= k < |items| ==> BetweenManagers(items[k])
    requires ItemsDeltas(key, items).Ok?
    ensures DeltaTotal(ItemsDeltas(key, items).value) == 0
  {
    if items != [] {
      var init := items[..|items| - 1];
      assert forall k :: 0 <= k < |init| ==> init[k] == items[k];
      ItemsDeltasConserve(key, init);
      ItemDeltasConserve(key, items[|items| - 1]);
      DeltaTotalAppend(ItemsDeltas(key, init).value, ItemDeltas(key, items[|items| - 1]).value);
    }
  }

  /** Whether every item listed under the four kinds is a transfer between two managers. */
  predicate AllBetweenManagers(msg: map<string, Json>)
  {
    forall key, k :: key in TRANSFER_KEYS && Get(msg, key).JList? && 0 <= k < |Get(msg, key).items| ==>
      BetweenManagers(Get(msg, key).items[k])
  }

  lemma {:induction false} KeysDeltasConserve(msg: map<string, Json>, keys: seq<string>)
    requires forall key :: key in keys ==> key in TRANSFER_KEYS
    requires AllBetweenManagers(msg)
    requires KeysDeltas(msg, keys).Ok?
    ensures DeltaTotal(KeysDeltas(msg, keys).value) == 0
  {
    if keys != [] {
      var init := keys[..|keys| - 1];
      var last := keys[|keys| - 1];
      assert forall key :: key in init ==> key in keys;
      KeysDeltasConserve(msg, init);
      var items := ItemsOf(Or(Get(msg, last), JList([])));
      assert items.Ok?;
      var v := Or(Get(msg, last), JList([]));
      if Get(msg, last).JList? && Truthy(Get(msg, last)) {
        assert items.value == Get(msg, last).items;
        ItemsDeltasConserve(last, items.value);
      } else if v.JList? {
        assert items.value == [];
      } else {
        assert items.value == [];
      }
      DeltaTotalAppend(KeysDeltas(msg, init).value, ItemsDeltas(last, items.value).value);
    }
  }

  /** When every item is a transfer between two managers, a message only moves money between them. */
  lemma MessageDeltasConserve(message: map<string, Json>)
    requires message != map[]
    requires AllBetweenManagers(message)
    requires MessageDeltas(JObject(message)).Ok?
    ensures DeltaTotal(MessageDeltas(JObject(message)).value) == 0
  {
    KeysDeltasConserve(message, TRANSFER_KEYS);
  }

  /** A TRANSACTION_SALARIES entry: the recipient pays the amount in the title; no computer check is made. */
  function SalaryEntryDeltas(entry: map<string, Json>): (r: Result<seq<(int, int)>>)
    ensures r.Ok? ==> |r.value| <= 1 && forall k :: 0 <= k < |r.value| ==> r.value[k].1 < 0
  {
    var recId := PartyId(entry, "recipient");
    if recId == JNull then Ok([])
    else
      var title := Or(Get(entry, "title"), JStr(""));
      if !title.JStr? then Raise(TypeError)
      else
        match ParseSalaryAmount(title.s)
        case None => Ok([])
        case Some(amount) =>
          if amount <= 0 then Ok([])
          else
            match PyInt(recId)
            case Ok(u) => Ok([(u, -amount)])
            case Raise(e) => Raise(e)
  }

  // ---------------------------------------------------------------------------
  // Transfer events of one transfer item

  /** `a or b or c or d` over four keys. */
  function FirstOf(item: map<string, Json>, a: string, b: string, c: string, d: string): Json
  {
    Or(Or(Or(Get(item, a), Get(item, b)), Get(item, c)), Get(item, d))
  }

  /** The tradable id one entry of a list stands for: a dict's `id`, or a number itself; None when skipped. */
  function TidOf(x: Json): Result<Option<int>>
  {
    if x.JObject? then
      (var i := Get(x.fields, "id");
       if i == JNull then Ok(None)
       else match PyInt(i) case Ok(v) => Ok(Some(v)) case Raise(e) => Raise(e))
    else if x.JInt? || x.JBool? || x.JFloat? then
      (match PyInt(x) case Ok(v) => Ok(Some(v)) case Raise(e) => Raise(e))
    else Ok(None)
  }

  /** `_tids_from_list` on the entries of a list. */
  function TidsOf(xs: seq<Json>): (r: Result<seq<int>>)
    ensures r.Ok? ==> |r.value| <= |xs|
  {
    if xs == [] then Ok([])
    else
      match TidsOf(xs[..|xs| - 1])
      case Raise(e) => Raise(e)
      case Ok(init) =>
        match TidOf(xs[|xs| - 1])
        case Raise(e) => Raise(e)
        case Ok(None) => Ok(init)
        case Ok(Some(t)) => Ok(init + [t])
  }

  /** `_tids_from_list(lst)`: nothing unless `lst` is a list. */
  function TidsFromList(lst: Json): Result<seq<int>>
  {
    if lst.JList? then TidsOf(lst.items) else Ok([])
  }

  /** One event per tradable, all moving from `fromUser` to `toUser` at `t`. */
  function Directed(t: Instant, fromUser: int, toUser: int, tids: seq<int>): (r: seq<TransferEvent>)
    ensures |r| == |tids|
    ensures forall k :: 0 <= k < |r| ==> r[k] == TransferEvent(t, fromUser, toUser, tids[k])
  {
    seq(|tids|, k requires 0 <= k < |tids| => TransferEvent(t, fromUser, toUser, tids[k]))
  }

  /** `item.get("tradables") or (item.get("tradable") and [item["tradable"]]) or []`, made a list. */
  function SingleTradables(item: map<string, Json>): seq<Json>
  {
    var many := Get(item, "tradables");
    var one := Get(item, "tradable");
    var raw := if Truthy(many) then many else if Truthy(one) then JList([one]) else JList([]);
    if raw.JList? then raw.items else if Truthy(raw) then [raw] else []
  }

  /** The directed events of one transfer item dated `t`. */
  function ItemEvents(item: Json, t: Instant): Result<seq<TransferEvent>>
  {
    if !item.JObject? then Ok([])
    else
      var f := item.fields;
      var fromJ := PartyId(f, "from");
      var toJ := PartyId(f, "to");
      if fromJ == JNull || toJ == JNull then Ok([])
      else
        match PyInt(fromJ)
        case Raise(e) => Raise(e)
        case Ok(a) =>
          match PyInt(toJ)
          case Raise(e) => Raise(e)
          case Ok(b) =>
            match TidsFromList(FirstOf(f, "tradablesA", "fromTradables", "tradablesFrom", "fromUserTradables"))
            case Raise(e) => Raise(e)
            case Ok(fromTids) =>
              match TidsFromList(FirstOf(f, "tradablesB", "toTradables", "tradablesTo", "toUserTradables"))
              case Raise(e) => Raise(e)
              case Ok(toTids) =>
                if fromTids != [] || toTids != [] then Ok(Directed(t, a, b, fromTids) + Directed(t, b, a, toTids))
                else
                  match TidsOf(SingleTradables(f))
                  case Raise(e) => Raise(e)
                  case Ok(single) => Ok(Directed(t, a, b, single))
  }

  /** An item without a `from` or a `to` id yields no event. */
  lemma ItemEventsNeedBothSides(item: map<string, Json>, t: Instant)
    requires PartyId(item, "from") == JNull || PartyId(item, "to") == JNull
    ensures ItemEvents(JObject(item), t) == Ok([])
  {
  }

  /**
   * A swap: list A moves from `from` to `to` and list B moves back from `to` to `from`; the single
   * `tradable`/`tradables` fields are read only when both lists are empty.
   */
  lemma ItemEventsDirections(item: map<string, Json>, t: Instant, a: int, b: int)
    requires PartyId(item, "from") == JInt(a) && PartyId(item, "to") == JInt(b)
    ensures var fromTids := TidsFromList(FirstOf(item, "tradablesA", "fromTradables", "tradablesFrom", "fromUserTradables"));
      var toTids := TidsFromList(FirstOf(item, "tradablesB", "toTradables", "tradablesTo", "toUserTradables"));
      var r := ItemEvents(JObject(item), t);
      && (fromTids.Ok? && toTids.Ok? && (fromTids.value != [] || toTids.value != []) ==>
            r == Ok(Directed(t, a, b, fromTids.value) + Directed(t, b, a, toTids.value)))
      && (fromTids.Ok? && toTids.Ok? && fromTids.value == [] && toTids.value == [] ==>
            r == (match TidsOf(SingleTradables(item)) case Raise(e) => Raise(e) case Ok(s) => Ok(Directed(t, a, b, s))))
      && (r.Ok? ==> forall k :: 0 <= k < |r.value| ==>
            r.value[k].time == t && {r.value[k].fromUser, r.value[k].toUser} == {a, b})
  {
    var r := ItemEvents(JObject(item), t);
    if r.Ok? {
      forall k | 0 <= k < |r.value|
        ensures r.value[k].time == t && {r.value[k].fromUser, r.value[k].toUser} == {a, b}
      {
      }
    }
  }

  /** The events of the items, in order. */
  function ItemsEvents(items: seq<Json>, t: Instant): Result<seq<TransferEvent>>
  {
    if items == [] then Ok([]) else Then(ItemsEvents(items[..|items| - 1], t), ItemEvents(items[|items| - 1], t))
  }

  function KeysEvents(msg: map<string, Json>, keys: seq<string>, t: Instant): Result<seq<TransferEvent>>
  {
    if keys == [] then Ok([])
    else
      Then(KeysEvents(msg, keys[..|keys| - 1], t),
        match ItemsOf(Or(Get(msg, keys[|keys| - 1]), JList([])))
        case Raise(e) => Raise(e)
        case Ok(items) => ItemsEvents(items, t))
  }

  /** The events of one TRANSACTION_TRANSFER message dated `t`. */
  function MessageEvents(message: Json, t: Instant): Result<seq<TransferEvent>>
  {
    var msg := Or(message, JObject(map[]));
    if !msg.JObject? then Raise(AttributeError) else KeysEvents(msg.fields, TRANSFER_KEYS, t)
  }

  lemma {:induction false} EventsPrefixRaises(msg: map<string, Json>, keys: seq<string>, n: nat, t: Instant)
    requires n <= |keys|
    requires KeysEvents(msg, keys[..n], t).Raise?
    ensures KeysEvents(msg, keys, t) == KeysEvents(msg, keys[..n], t)
    decreases |keys| - n
  {
    if n < |keys| {
      assert keys[..n + 1][..n] == keys[..n];
      EventsPrefixRaises(msg, keys, n + 1, t);
    } else {
      assert keys[..n] == keys;
    }
  }

  /** The inner loop over the items of one kind. */
  method CollectItemEvents(items: seq<Json>, t: Instant) returns (r: Result<seq<TransferEvent>>)
    ensures r == ItemsEvents(items, t)
  {
    var events: seq<TransferEvent> := [];
    var i := 0;
    while i < |items|
      invariant 0 <= i <= |items|
      invariant ItemsEvents(items[..i], t) == Ok(events)
    {
      assert items[..i + 1][..i] == items[..i];
      var e := ItemEvents(items[i], t);
      if e.Raise? {
        ItemsEventsPrefixRaises(items, i + 1, t);
        return e;
      }
      events := events + e.value;
      i := i + 1;
    }
    assert items[..i] == items;
    r := Ok(events);
  }

  lemma {:induction false} ItemsEventsPrefixRaises(items: seq<Json>, n: nat, t: Instant)
    requires n <= |items|
    requires ItemsEvents(items[..n], t).Raise?
    ensures ItemsEvents(items, t) == ItemsEvents(items[..n], t)
    decreases |items| - n
  {
    if n < |items| {
      assert items[..n + 1][..n] == items[..n];
      ItemsEventsPrefixRaises(items, n + 1, t);
    } else {
      assert items[..n] == items;
    }
  }

  /** The loops over the four item kinds and their items in `get_news_transfer_events_since`. */
  method CollectTransferEvents(message: Json, t: Instant) returns (r: Result<seq<TransferEvent>>)
    ensures r == MessageEvents(message, t)
  {
    var msg := Or(message, JObject(map[]));
    if !msg.JObject? {
      return Raise(AttributeError);
    }
    var events: seq<TransferEvent> := [];
    var n := 0;
    while n < |TRANSFER_KEYS|
      invariant 0 <= n <= |TRANSFER_KEYS|
      invariant KeysEvents(msg.fields, TRANSFER_KEYS[..n], t) == Ok(events)
    {
      var key := TRANSFER_KEYS[n];
      assert TRANSFER_KEYS[..n + 1][..n] == TRANSFER_KEYS[..n];
      var items := ItemsOf(Or(Get(msg.fields, key), JList([])));
      if items.Raise? {
        EventsPrefixRaises(msg.fields, TRANSFER_KEYS, n + 1, t);
        return Raise(items.error);
      }
      var e := CollectItemEvents(items.value, t);
      if e.Raise? {
        EventsPrefixRaises(msg.fields, TRANSFER_KEYS, n + 1, t);
        return e;
      }
      events := events + e.value;
      n := n + 1;
    }
    assert TRANSFER_KEYS[..n] == TRANSFER_KEYS;
    r := Ok(events);
  }
}
