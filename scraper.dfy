/**
 * The pure rules and the balance folds of backend/scraper.py: `_parse_int`,
 * the news-cache validity check, the mapping of one offers-history entry to
 * transfer entries, the last transfer date per manager, and how `fetch_all`
 * turns deltas and salary totals into balances and applies the logged-in
 * user's own budget.
 */
module Scraper {
  import opened PyBuiltins
  import opened Models
  import Balance
  import ComunioApi

  // ---------------------------------------------------------------------------
  // _parse_int

  /** `_parse_int(val)`: ints unchanged, texts through their digits and minus signs, anything else 0. */
  function ParseInt(val: Json): (r: int)
    ensures IsInt(val) ==> r == IntOf(val)
    ensures !IsInt(val) && !val.JStr? ==> r == 0
  {
    if IsInt(val) then IntOf(val)
    else if val.JStr? then
      var s := KeepDigitsAndMinus(val.s);
      if s == "" then 0
      else match IntFromText(s) case Some(i) => i case None => 0
    else 0
  }

  /** A text is read by its digits and minus signs; a lone or misplaced minus gives 0. */
  lemma ParseIntText(text: string)
    ensures var s := KeepDigitsAndMinus(text);
      ParseInt(JStr(text)) == if IsSignedDigits(s) then SignedDigitsValue(s) else 0
  {
    IntFromDigitsAndMinus(KeepDigitsAndMinus(text));
  }

  /** The edge cases: "-" and "1-2" both read as 0, and a text without digits as 0. */
  lemma ParseIntEdgeCases()
    ensures ParseInt(JStr("-")) == 0
    ensures ParseInt(JStr("1-2")) == 0
    ensures ParseInt(JStr("€")) == 0
  {
    ParseIntText("-");
    ParseIntText("1-2");
    assert KeepDigitsAndMinus("1-2") == "1-2";
    assert !AllDigits("1-2") by {
      assert !IsDigit("1-2"[1]);
    }
  }

  // ---------------------------------------------------------------------------
  // The validity check of _load_news_cache

  /**
   * `float(ts)`. Numbers and booleans convert directly; a text is converted by `parseFloat`, the
   * text-to-float parser of the runtime (None where it raises ValueError).
   */
  function FloatOf(ts: Json, parseFloat: string -> Option<real>): Result<real>
  {
    match ts
    case JInt(i) => Ok(i as real)
    case JBool(b) => Ok(if b then 1.0 else 0.0)
    case JFloat(v, _) => Ok(v)
    case JStr(s) => (match parseFloat(s) case Some(v) => Ok(v) case None => Raise(ValueError))
    case _ => Raise(TypeError)
  }

  /**
   * Whether `_load_news_cache` returns the cached document `raw` rather than None, at clock reading
   * `now` (seconds): the URL and the start date must match, and the time stamp must be at most `ttl`
   * seconds old. A document that is not a dict, or a time stamp `float()` rejects, raises.
   */
  function NewsCacheValid(raw: Json, newsUrl: string, sinceIso: string, now: real, ttl: int,
                          parseFloat: string -> Option<real>): (r: Result<bool>)
    ensures !raw.JObject? ==> r == Raise(AttributeError)
    ensures raw.JObject? && (Get(raw.fields, "news_url") != JStr(newsUrl) || Get(raw.fields, "since_date") != JStr(sinceIso))
      ==> r == Ok(false)
    ensures raw.JObject? && Get(raw.fields, "ts") == JNull ==> r == Ok(false)
  {
    if !raw.JObject? then Raise(AttributeError)
    else
      var f := raw.fields;
      if Get(f, "news_url") != JStr(newsUrl) || Get(f, "since_date") != JStr(sinceIso) then Ok(false)
      else
        var ts := Get(f, "ts");
        if ts == JNull then Ok(false)
        else
          match FloatOf(ts, parseFloat)
          case Raise(e) => Raise(e)
          case Ok(t) => Ok(!(now - t > ttl as real))
  }

  /** A matching document with a numeric time stamp is accepted exactly while it is at most `ttl` seconds old. */
  lemma NewsCacheFreshness(fields: map<string, Json>, newsUrl: string, sinceIso: string, ts: int, now: real, ttl: int,
                           parseFloat: string -> Option<real>)
    requires Get(fields, "news_url") == JStr(newsUrl) && Get(fields, "since_date") == JStr(sinceIso)
    requires Get(fields, "ts") == JInt(ts)
    ensures NewsCacheValid(JObject(fields), newsUrl, sinceIso, now, ttl, parseFloat) == Ok(now - ts as real <= ttl as real)
  {
  }

  /** A document accepted now was also accepted at every earlier reading of the clock. */
  lemma NewsCacheExpiresOnce(raw: Json, newsUrl: string, sinceIso: string, now: real, earlier: real, ttl: int,
                             parseFloat: string -> Option<real>)
    requires earlier <= now
    requires NewsCacheValid(raw, newsUrl, sinceIso, now, ttl, parseFloat) == Ok(true)
    ensures NewsCacheValid(raw, newsUrl, sinceIso, earlier, ttl, parseFloat) == Ok(true)
  {
  }

  // ---------------------------------------------------------------------------
  // _parse_offers_history_entry

  /** `_user_name(obj)`: a text stripped, a dict's `name` or `firstName` stripped, anything else "". */
  function UserName(obj: Json): (r: Result<string>)
    ensures obj.JStr? ==> r == Ok(Strip(obj.s))
    ensures !obj.JStr? && !obj.JObject? ==> r == Ok("")
    ensures r.Ok? ==> Strip(r.value) == r.value
  {
    if obj.JStr? then StripTwice(obj.s); Ok(Strip(obj.s))
    else if obj.JObject? then
      var v := Or(Or(Get(obj.fields, "name"), Get(obj.fields, "firstName")), JStr(""));
      if v.JStr? then StripTwice(v.s); Ok(Strip(v.s)) else Raise(AttributeError)
    else Ok("")
  }

  /** The amount of an offers-history entry: `amount`, else `price`. */
  function OfferAmount(entry: map<string, Json>): int
  {
    ParseInt(Or(Get(entry, "amount"), Get(entry, "price")))
  }

  /** The date field of an offers-history entry: `date`, else `created`, else `timestamp`. */
  function OfferRawDate(entry: map<string, Json>): Json
  {
    Or(Or(Or(Get(entry, "date"), Get(entry, "created")), Get(entry, "timestamp")), JStr(""))
  }

  /**
   * `_parse_offers_history_entry(entry)`. `parseDate` is the date parsing inside the `try`: the day of
   * an ISO time stamp or of a `YYYY-MM-DD` prefix, None where parsing raises.
   */
  function ParseOffersHistoryEntry(entry: map<string, Json>, parseDate: Json -> Option<int>): Result<seq<TransferEntry>>
  {
    var amount := OfferAmount(entry);
    if amount <= 0 then Ok([])
    else
      var raw := OfferRawDate(entry);
      var day := if Truthy(raw) then parseDate(raw) else None;
      if day.None? then Ok([])
      else
        match UserName(Or(Or(Get(entry, "buyer"), Get(entry, "toUser")), Get(entry, "bidder")))
        case Raise(e) => Raise(e)
        case Ok(buyer) =>
          match UserName(Or(Or(Get(entry, "seller"), Get(entry, "fromUser")), Get(entry, "owner")))
          case Raise(e) => Raise(e)
          case Ok(seller) =>
            Ok((if buyer != "" then [TransferEntry(buyer, day.value, amount, true)] else [])
              + (if seller != "" then [TransferEntry(seller, day.value, amount, false)] else []))
  }

  /**
   * What one entry yields: nothing for a non-positive amount or a missing date; otherwise at most a
   * purchase and then a sale, both with the entry's amount and day and a non-empty stripped name.
   */
  lemma OffersEntryShape(entry: map<string, Json>, parseDate: Json -> Option<int>)
    ensures var r := ParseOffersHistoryEntry(entry, parseDate);
      && (OfferAmount(entry) <= 0 ==> r == Ok([]))
      && (!Truthy(OfferRawDate(entry)) ==> r == Ok([]))
      && (r.Ok? ==> |r.value| <= 2)
      && (r.Ok? && r.value != [] ==>
            && Truthy(OfferRawDate(entry)) && parseDate(OfferRawDate(entry)).Some?
            && forall k :: 0 <= k < |r.value| ==>
                 && r.value[k].amount == OfferAmount(entry) > 0
                 && r.value[k].transferDate == parseDate(OfferRawDate(entry)).value
                 && r.value[k].managerName != ""
                 && Strip(r.value[k].managerName) == r.value[k].managerName)
      && (r.Ok? && |r.value| == 2 ==> r.value[0].isPurchase && !r.value[1].isPurchase)
  {
  }

  /** Stripping twice strips nothing more. */
  lemma StripTwice(t: string)
    ensures Strip(Strip(t)) == Strip(t)
  {
    StripEnds(t);
    StripNoSpace(Strip(t));
  }

  /** Parsed entries feed the net spending: the buyer spends the amount and the seller gains it. */
  lemma OffersEntrySpending(entry: map<string, Json>, parseDate: Json -> Option<int>, buyer: string, seller: string)
    requires OfferAmount(entry) > 0 && Truthy(OfferRawDate(entry)) && parseDate(OfferRawDate(entry)).Some?
    requires UserName(Or(Or(Get(entry, "buyer"), Get(entry, "toUser")), Get(entry, "bidder"))) == Ok(buyer)
    requires UserName(Or(Or(Get(entry, "seller"), Get(entry, "fromUser")), Get(entry, "owner"))) == Ok(seller)
    requires buyer != "" && seller != "" && buyer != seller
    ensures var r := ParseOffersHistoryEntry(entry, parseDate);
      && r.Ok?
      && Balance.Spending(r.value, buyer) == OfferAmount(entry)
      && Balance.Spending(r.value, seller) == -OfferAmount(entry)
  {
    var r := ParseOffersHistoryEntry(entry, parseDate).value;
    assert |r| == 2;
    assert r[..1][..0] == [] && r[..1][0] == r[0];
    assert Balance.Spending(r, buyer) == Balance.Spending(r[..1], buyer) + Balance.EntryDelta(r[1], buyer);
    assert Balance.Spending(r[..1], buyer) == Balance.EntryDelta(r[0], buyer);
    assert Balance.Spending(r, seller) == Balance.Spending(r[..1], seller) + Balance.EntryDelta(r[1], seller);
    assert Balance.Spending(r[..1], seller) == Balance.EntryDelta(r[0], seller);
    assert Balance.EntryDelta(r[0], buyer) == OfferAmount(entry) && Balance.EntryDelta(r[1], buyer) == 0;
    assert Balance.EntryDelta(r[0], seller) == 0 && Balance.EntryDelta(r[1], seller) == -OfferAmount(entry);
  }

  /**
   * The offers-history loop of `fetch_all`: entries are parsed in order, and the first entry that
   * raises ends the loop; what was parsed before it is kept.
   */
  function HistoryTransfers(raw: seq<Json>, parseDate: Json -> Option<int>): seq<TransferEntry>
  {
    UntilError(raw, e => ParseHistoryItem(e, parseDate))
  }

  /** One item of the offers history: `entry.get` on a value that is not a dict raises AttributeError. */
  function ParseHistoryItem(item: Json, parseDate: Json -> Option<int>): (r: Result<seq<TransferEntry>>)
    ensures !item.JObject? ==> r == Raise(AttributeError)
    ensures item.JObject? ==> r == ParseOffersHistoryEntry(item.fields, parseDate)
  {
    if item.JObject? then ParseOffersHistoryEntry(item.fields, parseDate) else Raise(AttributeError)
  }

  /** The concatenated results of `parse` over `raw`, up to the first that raises. */
  function UntilError<E, T>(raw: seq<E>, parse: E -> Result<seq<T>>): seq<T>
  {
    if raw == [] then []
    else
      match parse(raw[0])
      case Raise(_) => []
      case Ok(es) => es + UntilError(raw[1..], parse)
  }

  method CollectHistoryTransfers(raw: seq<Json>, parseDate: Json -> Option<int>) returns (transfers: seq<TransferEntry>)
    ensures transfers == HistoryTransfers(raw, parseDate)
  {
    transfers := CollectUntilError(raw, e => ParseHistoryItem(e, parseDate));
  }

  /** The loop with its `try`: results are appended until the first that raises. */
  method CollectUntilError<E, T>(raw: seq<E>, parse: E -> Result<seq<T>>) returns (out: seq<T>)
    ensures out == UntilError(raw, parse)
  {
    out := [];
    var i := 0;
    while i < |raw|
      invariant 0 <= i <= |raw|
      invariant out + UntilError(raw[i..], parse) == UntilError(raw, parse)
    {
      var r := parse(raw[i]);
      UntilErrorStep(raw, i, parse);
      if r.Raise? {
        return;
      }
      assert out + UntilError(raw[i..], parse) == (out + r.value) + UntilError(raw[i + 1..], parse);
      out := out + r.value;
      i := i + 1;
    }
    assert out + [] == out;
  }

  /** One step of `UntilError` from position `i`. */
  lemma UntilErrorStep<E, T>(raw: seq<E>, i: nat, parse: E -> Result<seq<T>>)
    requires i < |raw|
    ensures parse(raw[i]).Raise? ==> UntilError(raw[i..], parse) == []
    ensures parse(raw[i]).Ok? ==> UntilError(raw[i..], parse) == parse(raw[i]).value + UntilError(raw[i + 1..], parse)
  {
    assert raw[i..][0] == raw[i] && raw[i..][1..] == raw[i + 1..];
  }

  /** When every entry parses, the results are concatenated in order. */
  lemma {:induction false} UntilErrorAllParsed<E, T>(raw: seq<E>, parse: E -> Result<seq<T>>, more: E)
    requires forall k :: 0 <= k < |raw| ==> parse(raw[k]).Ok?
    requires parse(more).Ok?
    ensures UntilError(raw + [more], parse) == UntilError(raw, parse) + parse(more).value
  {
    if raw == [] {
      assert [more][1..] == [];
      assert parse(more).value + [] == parse(more).value;
    } else {
      assert (raw + [more])[0] == raw[0];
      assert (raw + [more])[1..] == raw[1..] + [more];
      assert forall k :: 0 <= k < |raw[1..]| ==> raw[1..][k] == raw[k + 1];
      UntilErrorAllParsed(raw[1..], parse, more);
    }
  }

  /** A result that raises hides every entry after it. */
  lemma {:induction false} UntilErrorStops<E, T>(raw: seq<E>, parse: E -> Result<seq<T>>, bad: E, rest: seq<E>)
    requires parse(bad).Raise?
    ensures UntilError(raw + [bad] + rest, parse) == UntilError(raw + [bad], parse)
  {
    if raw == [] {
      assert ([bad] + rest)[0] == bad;
      assert [bad][0] == bad;
    } else {
      assert (raw + [bad] + rest)[0] == raw[0];
      assert (raw + [bad] + rest)[1..] == raw[1..] + [bad] + rest;
      assert (raw + [bad])[0] == raw[0];
      assert (raw + [bad])[1..] == raw[1..] + [bad];
      UntilErrorStops(raw[1..], parse, bad, rest);
    }
  }

  /** When every entry parses, the history is the concatenation of what each entry yields. */
  lemma HistoryAllParsed(raw: seq<Json>, parseDate: Json -> Option<int>, more: Json)
    requires forall k :: 0 <= k < |raw| ==> ParseHistoryItem(raw[k], parseDate).Ok?
    requires ParseHistoryItem(more, parseDate).Ok?
    ensures more.JObject?
    ensures HistoryTransfers(raw + [more], parseDate) == HistoryTransfers(raw, parseDate) + ParseOffersHistoryEntry(more.fields, parseDate).value
  {
    UntilErrorAllParsed(raw, e => ParseHistoryItem(e, parseDate), more);
  }

  /** An entry that raises, a non-dict among them, hides every entry after it. */
  lemma HistoryStopsAtError(raw: seq<Json>, parseDate: Json -> Option<int>, bad: Json, rest: seq<Json>)
    requires !bad.JObject? || ParseOffersHistoryEntry(bad.fields, parseDate).Raise?
    ensures HistoryTransfers(raw + [bad] + rest, parseDate) == HistoryTransfers(raw + [bad], parseDate)
  {
    UntilErrorStops(raw, e => ParseHistoryItem(e, parseDate), bad, rest);
  }

  // ---------------------------------------------------------------------------
  // get_last_transfer_dates

  /** `get_last_transfer_dates`: the last transfer day per stripped, non-blank manager name. */
  function LastDates(ts: seq<TransferEntry>): map<string, int>
  {
    if ts == [] then map[]
    else
      var m := LastDates(ts[..|ts| - 1]);
      var t := ts[|ts| - 1];
      var name := Strip(t.managerName);
      if name != "" && (name !in m || t.transferDate > m[name]) then m[name := t.transferDate] else m
  }

  method LastTransferDates(ts: seq<TransferEntry>) returns (byManager: map<string, int>)
    ensures byManager == LastDates(ts)
  {
    byManager := map[];
    var i := 0;
    while i < |ts|
      invariant 0 <= i <= |ts|
      invariant byManager == LastDates(ts[..i])
    {
      assert ts[..i + 1][..i] == ts[..i];
      var name := Strip(ts[i].managerName);
      if name != "" && (name !in byManager || ts[i].transferDate > byManager[name]) {
        byManager := byManager[name := ts[i].transferDate];
      }
      i := i + 1;
    }
    assert ts[..i] == ts;
  }

  /** The update the last entry makes to the dates of the entries before it. */
  lemma LastDatesStep(ts: seq<TransferEntry>)
    requires ts != []
    ensures var mi := LastDates(ts[..|ts| - 1]);
      var t := ts[|ts| - 1];
      var n0 := Strip(t.managerName);
      LastDates(ts) == if n0 != "" && (n0 !in mi || t.transferDate > mi[n0]) then mi[n0 := t.transferDate] else mi
  {
  }

  /** The keys are exactly the non-blank stripped names of the list. */
  lemma {:induction false} LastDatesKeys(ts: seq<TransferEntry>)
    ensures forall name :: name in LastDates(ts) <==>
      name != "" && exists k :: 0 <= k < |ts| && Strip(ts[k].managerName) == name
  {
    if ts != [] {
      var init := ts[..|ts| - 1];
      LastDatesKeys(init);
      LastDatesStep(ts);
      var last := |ts| - 1;
      assert forall k :: 0 <= k < |init| ==> init[k] == ts[k];
      forall name
        ensures name in LastDates(ts) <==> name != "" && exists k :: 0 <= k < |ts| && Strip(ts[k].managerName) == name
      {
        if name in LastDates(init) {
          var k :| 0 <= k < |init| && Strip(init[k].managerName) == name;
          assert Strip(ts[k].managerName) == name;
        } else if name in LastDates(ts) {
          assert Strip(ts[last].managerName) == name;
        }
      }
    }
  }

  /** No entry of a manager is later than the recorded day. */
  lemma {:induction false} LastDatesUpper(ts: seq<TransferEntry>)
    ensures forall name, k :: name in LastDates(ts) && 0 <= k < |ts| && Strip(ts[k].managerName) == name ==>
      ts[k].transferDate <= LastDates(ts)[name]
  {
    if ts != [] {
      var init := ts[..|ts| - 1];
      LastDatesUpper(init);
      LastDatesKeys(init);
      LastDatesStep(ts);
      var last := |ts| - 1;
      forall name, k | name in LastDates(ts) && 0 <= k < |ts| && Strip(ts[k].managerName) == name
        ensures ts[k].transferDate <= LastDates(ts)[name]
      {
        if k < last {
          assert init[k] == ts[k];
          assert name in LastDates(init);
        }
      }
    }
  }

  /** The recorded day is the day of one of that manager's entries. */
  lemma {:induction false} LastDatesAttained(ts: seq<TransferEntry>)
    ensures forall name :: name in LastDates(ts) ==>
      exists k :: 0 <= k < |ts| && Strip(ts[k].managerName) == name && ts[k].transferDate == LastDates(ts)[name]
  {
    if ts != [] {
      var init := ts[..|ts| - 1];
      LastDatesAttained(init);
      LastDatesStep(ts);
      var last := |ts| - 1;
      var mi := LastDates(init);
      forall name | name in LastDates(ts)
        ensures exists k :: 0 <= k < |ts| && Strip(ts[k].managerName) == name && ts[k].transferDate == LastDates(ts)[name]
      {
        if name in mi && LastDates(ts)[name] == mi[name] {
          var k :| 0 <= k < |init| && Strip(init[k].managerName) == name && init[k].transferDate == mi[name];
          assert ts[k] == init[k];
        } else {
          assert Strip(ts[last].managerName) == name && ts[last].transferDate == LastDates(ts)[name];
        }
      }
    }
  }

  // ---------------------------------------------------------------------------
  // Balances in fetch_all

  /** The users named in a list of `(user_id, delta)` pairs. */
  function UsersOf(ds: seq<(int, int)>): set<int>
  {
    set p | p in ds :: p.0
  }

  /** The sum of the deltas of user `u`. */
  function SumFor(ds: seq<(int, int)>, u: int): int
  {
    if ds == [] then 0 else SumFor(ds[..|ds| - 1], u) + (if ds[|ds| - 1].0 == u then ds[|ds| - 1].1 else 0)
  }

  /**
   * The balances the folds produce, in closed form: every user with a delta or a salary total starts
   * at `startBudget`, gains its deltas and pays its salary total.
   */
  function ClosedBalances(ds: seq<(int, int)>, salary: map<int, int>, startBudget: int): map<int, int>
  {
    map u | u in UsersOf(ds) + salary.Keys :: startBudget + SumFor(ds, u) - (if u in salary then salary[u] else 0)
  }

  /** `balance[uid] = balance.get(uid, START_BUDGET) + delta` for each pair in order. */
  method AddDeltas(ds: seq<(int, int)>, startBudget: int) returns (balance: map<int, int>)
    ensures balance == ClosedBalances(ds, map[], startBudget)
  {
    balance := map[];
    var i := 0;
    while i < |ds|
      invariant 0 <= i <= |ds|
      invariant balance.Keys == UsersOf(ds[..i])
      invariant forall u :: u in balance ==> balance[u] == startBudget + SumFor(ds[..i], u)
    {
      assert ds[..i + 1] == ds[..i] + [ds[i]];
      assert ds[..i + 1][..i] == ds[..i];
      var (u, d) := ds[i];
      if u !in balance {
        SumForAbsent(ds[..i], u);
      }
      balance := balance[u := (if u in balance then balance[u] else startBudget) + d];
      i := i + 1;
    }
    assert ds[..i] == ds;
  }

  /** `balance[uid] = balance.get(uid, START_BUDGET) - total_salary` for each user of the salary ledger. */
  method ChargeSalaries(ds: seq<(int, int)>, salary: map<int, int>, startBudget: int, start: map<int, int>)
    returns (balance: map<int, int>)
    requires start.Keys == UsersOf(ds)
    requires forall u :: u in start ==> start[u] == startBudget + SumFor(ds, u)
    ensures balance.Keys == UsersOf(ds) + salary.Keys
    ensures forall u :: u in balance ==> balance[u] == startBudget + SumFor(ds, u) - (if u in salary then salary[u] else 0)
  {
    balance := start;
    var todo := salary.Keys;
    assert salary.Keys - todo == {};
    while todo != {}
      invariant todo <= salary.Keys
      invariant ChargedExcept(ds, salary, startBudget, balance, todo)
      decreases |todo|
    {
      var _ := NonEmptyHas(todo);
      var u :| u in todo;
      ChargeOne(ds, salary, startBudget, balance, todo, u);
      balance := balance[u := (if u in balance then balance[u] else startBudget) - salary[u]];
      todo := todo - {u};
    }
    assert salary.Keys - todo == salary.Keys;
  }

  /** The balances once every salary total but those of `todo` is charged. */
  predicate ChargedExcept(ds: seq<(int, int)>, salary: map<int, int>, startBudget: int, balance: map<int, int>, todo: set<int>)
  {
    && balance.Keys == UsersOf(ds) + (salary.Keys - todo)
    && forall u :: u in balance ==>
         balance[u] == startBudget + SumFor(ds, u) - (if u in salary && u !in todo then salary[u] else 0)
  }

  lemma ChargeOne(ds: seq<(int, int)>, salary: map<int, int>, startBudget: int, balance: map<int, int>, todo: set<int>, u: int)
    requires todo <= salary.Keys && u in todo
    requires ChargedExcept(ds, salary, startBudget, balance, todo)
    ensures ChargedExcept(ds, salary, startBudget,
      balance[u := (if u in balance then balance[u] else startBudget) - salary[u]], todo - {u})
  {
    if u !in balance {
      SumForAbsent(ds, u);
    }
  }

  /** What it takes for a map to be the closed-form balances. */
  lemma ClosedBalancesChar(ds: seq<(int, int)>, salary: map<int, int>, startBudget: int, m: map<int, int>)
    ensures m == ClosedBalances(ds, salary, startBudget) <==>
      && m.Keys == UsersOf(ds) + salary.Keys
      && forall u :: u in m ==> m[u] == startBudget + SumFor(ds, u) - (if u in salary then salary[u] else 0)
  {
  }

  /** A user without deltas has a delta sum of 0. */
  lemma {:induction false} SumForAbsent(ds: seq<(int, int)>, u: int)
    requires u !in UsersOf(ds)
    ensures SumFor(ds, u) == 0
  {
    if ds != [] {
      assert ds[|ds| - 1] in ds;
      assert forall p :: p in ds[..|ds| - 1] ==> p in ds;
      SumForAbsent(ds[..|ds| - 1], u);
    }
  }

  /** The fold of `fetch_all` with squad salaries: transfer deltas first, then the salary totals. */
  method BalancesWithSquads(transferDeltas: seq<(int, int)>, salaryByUser: map<int, int>, startBudget: int)
    returns (balance: map<int, int>)
    ensures balance == ClosedBalances(transferDeltas, salaryByUser, startBudget)
  {
    var afterTransfers := AddDeltas(transferDeltas, startBudget);
    ClosedBalancesChar(transferDeltas, map[], startBudget, afterTransfers);
    balance := ChargeSalaries(transferDeltas, salaryByUser, startBudget, afterTransfers);
    ClosedBalancesChar(transferDeltas, salaryByUser, startBudget, balance);
  }

  /** The fold of `fetch_all` without squad salaries: the news deltas when there are any, else no balances. */
  method BalancesFromNews(balanceDeltas: Option<seq<(int, int)>>, startBudget: int) returns (balance: map<int, int>)
    ensures balanceDeltas.None? ==> balance == map[]
    ensures balanceDeltas.Some? ==> balance == ClosedBalances(balanceDeltas.value, map[], startBudget)
  {
    if balanceDeltas.None? {
      return map[];
    }
    balance := AddDeltas(balanceDeltas.value, startBudget);
  }

  lemma {:induction false} SumForAppend(a: seq<(int, int)>, b: seq<(int, int)>, u: int)
    ensures SumFor(a + b, u) == SumFor(a, u) + SumFor(b, u)
  {
    if b != [] {
      assert (a + b)[..|a + b| - 1] == a + b[..|b| - 1];
      SumForAppend(a, b[..|b| - 1], u);
    } else {
      assert a + b == a;
    }
  }

  /** The sum of a user's deltas does not depend on their order. */
  lemma {:induction false} SumForPermutation(a: seq<(int, int)>, b: seq<(int, int)>, u: int)
    requires multiset(a) == multiset(b)
    ensures SumFor(a, u) == SumFor(b, u)
    decreases |a|
  {
    if a == [] {
      assert |b| == |multiset(b)| == 0;
    } else {
      var x := a[|a| - 1];
      assert a == a[..|a| - 1] + [x];
      assert x in multiset(b);
      var j :| 0 <= j < |b| && b[j] == x;
      MultisetRemoveLast(a, b, j);
      SumForPermutation(a[..|a| - 1], b[..j] + b[j + 1..], u);
      SumForRemove(b, j, u);
    }
  }

  lemma SumForRemove(b: seq<(int, int)>, j: nat, u: int)
    requires j < |b|
    ensures SumFor(b, u) == SumFor(b[..j] + b[j + 1..], u) + (if b[j].0 == u then b[j].1 else 0)
  {
    assert b == b[..j] + [b[j]] + b[j + 1..];
    SumForAppend(b[..j] + [b[j]], b[j + 1..], u);
    SumForAppend(b[..j], [b[j]], u);
    SumForAppend(b[..j], b[j + 1..], u);
    assert [b[j]][..0] == [];
  }

  /** The balances do not depend on the order in which the deltas arrive. */
  lemma BalancesOrderFree(a: seq<(int, int)>, b: seq<(int, int)>, salary: map<int, int>, startBudget: int)
    requires multiset(a) == multiset(b)
    ensures ClosedBalances(a, salary, startBudget) == ClosedBalances(b, salary, startBudget)
  {
    assert forall p :: p in a <==> p in b by {
      forall p
        ensures p in a <==> p in b
      {
        assert p in a <==> p in multiset(a);
        assert p in b <==> p in multiset(b);
      }
    }
    assert UsersOf(a) == UsersOf(b);
    forall u
      ensures SumFor(a, u) == SumFor(b, u)
    {
      SumForPermutation(a, b, u);
    }
  }

  /** A user's balance is the start budget plus its own deltas minus its own salary total. */
  lemma BalanceOfUser(ds: seq<(int, int)>, salary: map<int, int>, startBudget: int, u: int)
    ensures u in ClosedBalances(ds, salary, startBudget) <==> u in salary || exists k :: 0 <= k < |ds| && ds[k].0 == u
    ensures u in ClosedBalances(ds, salary, startBudget) ==>
      ClosedBalances(ds, salary, startBudget)[u] == startBudget + SumFor(ds, u) - (if u in salary then salary[u] else 0)
  {
    if exists k :: 0 <= k < |ds| && ds[k].0 == u {
      var k :| 0 <= k < |ds| && ds[k].0 == u;
      assert ds[k] in ds;
    }
  }

  // ---------------------------------------------------------------------------
  // The logged-in user's own budget

  /** `int(current_user_id) if isinstance(current_user_id, (int, str)) else None`, inside the `try`. */
  function LoggedInId(id: Json): Result<Option<int>>
  {
    if IsInt(id) then Ok(Some(IntOf(id)))
    else if id.JStr? then (match IntFromText(id.s) case Some(i) => Ok(Some(i)) case None => Raise(ValueError))
    else Ok(None)
  }

  /**
   * The `(user_id, budget)` that replaces a computed balance, from `root["user"]`. The `try` swallows
   * ValueError and TypeError; an AttributeError (a `user` that is not a dict) still propagates.
   */
  function LoggedInBudget(root: map<string, Json>, repr: Json -> string): (r: Result<Option<(int, int)>>)
    ensures r.Raise? ==> r.error == AttributeError
  {
    var user := Or(Get(root, "user"), JObject(map[]));
    if !user.JObject? then Raise(AttributeError)
    else
      var id := Get(user.fields, "id");
      if id == JNull then Ok(None)
      else
        match LoggedInId(id)
        case Raise(_) => Ok(None)
        case Ok(None) => Ok(None)
        case Ok(Some(uid)) =>
          match ComunioApi.ParseBudget(user.fields, repr)
          case Raise(AttributeError) => Raise(AttributeError)
          case Raise(_) => Ok(None)
          case Ok(None) => Ok(None)
          case Ok(Some(b)) => Ok(Some((uid, b)))
  }

  /** The override: the budget becomes the user's balance and the user becomes the statement user. */
  function ApplyLoggedInBudget(balance: map<int, int>, meta: LeagueMeta, o: Option<(int, int)>): (r: (map<int, int>, LeagueMeta))
    ensures o.None? ==> r == (balance, meta)
    ensures o.Some? ==>
      && r.0.Keys == balance.Keys + {o.value.0}
      && r.0[o.value.0] == o.value.1
      && (forall u :: u in balance && u != o.value.0 ==> r.0[u] == balance[u])
      && r.1 == meta.(statementUserId := Some(o.value.0))
  {
    if o.None? then (balance, meta) else (balance[o.value.0 := o.value.1], meta.(statementUserId := Some(o.value.0)))
  }

  /** A parsed budget of a logged-in user with an int id always wins over the computed balance. */
  lemma LoggedInBudgetWins(root: map<string, Json>, fields: map<string, Json>, uid: int, b: int, repr: Json -> string)
    requires fields != map[] && Get(root, "user") == JObject(fields)
    requires Get(fields, "id") == JInt(uid)
    requires ComunioApi.ParseBudget(fields, repr) == Ok(Some(b))
    ensures LoggedInBudget(root, repr) == Ok(Some((uid, b)))
  {
  }

  /** An id that is not an int, or an unreadable budget, leaves the balances as they are. */
  lemma LoggedInBudgetSkipped(root: map<string, Json>, fields: map<string, Json>, repr: Json -> string)
    requires fields != map[] && Get(root, "user") == JObject(fields)
    requires var id := Get(fields, "id");
      || id == JNull
      || id.JFloat? || id.JList? || id.JObject?
      || (id.JStr? && IntFromText(id.s).None?)
      || (LoggedInId(id).Ok? && ComunioApi.ParseBudget(fields, repr) == Raise(ValueError))
      || ComunioApi.ParseBudget(fields, repr) == Ok(None)
    ensures LoggedInBudget(root, repr) == Ok(None)
  {
  }
}
