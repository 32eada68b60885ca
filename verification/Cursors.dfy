/**
 The cursor codec of backend/routers/performance.py. The base64 and JSON bytes are left out:
 a raw cursor is the JSON value its text denotes. A JSON string matters only through what
 `uuid.UUID` and `datetime.fromisoformat` read from it.
 */
module Cursors {
  import opened Common
  import opened Pagination

  datatype Text = Text(uuid: Option<int>, instant: Option<real>)

  /** A JSON value. `Real` is a literal with a fraction or an exponent, `NotFinite` one that
      becomes infinite or not a number. The keys of an object are distinct. */
  datatype Json =
    | Null
    | Bool(b: bool)
    | Integer(n: int)
    | Real(value: real)
    | NotFinite
    | Str(text: Text)
    | Array(items: seq<Json>)
    | Object(entries: seq<(Text, Json)>)

  /** `Broken` is a raw cursor that is not base64 of a JSON text. */
  datatype Raw = Broken | Parsed(json: Json)

  /** `Rejected` is the 422 response; `Crashed` is an exception that is not turned into one. */
  datatype Decoded = NoCursor | Decoded(cursor: Place) | Rejected | Crashed

  // ---------------------------------------------------------------------------------
  // Integers of Python
  // ---------------------------------------------------------------------------------

  /** `int` refuses longer literals with a ValueError. */
  const MAX_INT_DIGITS := 4300

  function Power(base: nat, n: nat): nat {
    if n == 0 then 1 else base * Power(base, n - 1)
  }

  function Digits(n: nat): nat {
    if n < 10 then 1 else 1 + Digits(n / 10)
  }

  function Abs(n: int): nat {
    if n < 0 then -n else n
  }

  /** From this magnitude on an integer rounds beyond the largest double, `2^1024 - 2^971`, and
      `float`, like `math.isfinite`, raises OverflowError. */
  function FloatOverflow(): nat {
    Power(2, 970) * 18014398509481983    // 2^1024 - 2^970
  }

  /** `json.loads` accepts the integer literals in a value. */
  predicate Loadable(j: Json) {
    match j
    case Integer(n) => Digits(Abs(n)) <= MAX_INT_DIGITS
    case Array(items) => forall k :: 0 <= k < |items| ==> Loadable(items[k])
    case Object(entries) => forall k :: 0 <= k < |entries| ==> Loadable(entries[k].1)
    case _ => true
  }

  // ---------------------------------------------------------------------------------
  // The codec
  // ---------------------------------------------------------------------------------

  /** `v, i = ...`: a two-element array unpacks, and so does an object, into its two keys. */
  function Unpack(j: Json): Option<(Json, Json)> {
    match j
    case Array(items) => if |items| == 2 then Some((items[0], items[1])) else None
    case Object(entries) => if |entries| == 2 then Some((Str(entries[0].0), Str(entries[1].0))) else None
    case _ => None
  }

  /** The checks of the sort value: a finite number that is not a bool, or an instant. */
  function DecodeValue(sort: Sort, v: Json, id: int): Decoded {
    match (sort, v)
    case (_, Null) => Decoded(Place(None, id))
    case (NetPnl, Integer(n)) =>
      if Abs(n) >= FloatOverflow() then Crashed else Decoded(Place(Some(n as real), id))
    case (NetPnl, Real(x)) => Decoded(Place(Some(x), id))
    case (ClosedAt, Str(text)) => if text.instant.Some? then Decoded(Place(text.instant, id)) else Rejected
    case _ => Rejected
  }

  /** `_decode_cursor`. */
  function Decode(raw: Option<Raw>, sort: Sort): Decoded {
    if raw.None? then NoCursor
    else match raw.value
      case Broken => Rejected
      case Parsed(j) =>
        var parts := Unpack(j);
        if !Loadable(j) || parts.None? then Rejected
        else match parts.value.1
          case Str(text) => if text.uuid.None? then Rejected else DecodeValue(sort, parts.value.0, text.uuid.value)
          case _ => Rejected
  }

  /** `_encode_cursor`, for a place the page query emitted under `sort`. */
  function Encode(sort: Sort, cursor: Option<Place>): Option<Raw> {
    if cursor.None? then None
    else
      var key := cursor.value.key;
      var v := if key.None? then Null
               else match sort
                 case NetPnl => Real(key.value)
                 case ClosedAt => Str(Text(None, Some(key.value)));
      Some(Parsed(Array([v, Str(Text(Some(cursor.value.id), None))])))
  }

  lemma LoadablePair(j: Json)
    requires j.Array? && |j.items| == 2
    ensures Loadable(j) <==> Loadable(j.items[0]) && Loadable(j.items[1])
  {
  }

  /** Every emitted cursor is accepted for the same sort, and comes back as it was. */
  lemma DecodeInvertsEncode(sort: Sort, cursor: Option<Place>)
    ensures Decode(Encode(sort, cursor), sort) == if cursor.None? then NoCursor else Decoded(cursor.value)
  {
    if cursor.Some? {
      LoadablePair(Encode(sort, cursor).value.json);
    }
  }

  /** A cursor emitted under one sort is accepted under the other only from the NULL tail. */
  lemma CursorOfOtherSort(cursor: Place, sort: Sort, other: Sort)
    requires sort != other
    ensures Decode(Encode(sort, Some(cursor)), other)
            == if cursor.key.None? then Decoded(cursor) else Rejected
  {
    LoadablePair(Encode(sort, Some(cursor)).value.json);
  }

  /** A digit count is a bound on the magnitude. */
  lemma {:induction false} DigitsBound(n: nat, k: nat)
    requires k > 0
    ensures Digits(n) <= k <==> n < Power(10, k)
    decreases k
  {
    if k == 1 {
      assert Power(10, 1) == 10 * Power(10, 0);
    } else {
      if n >= 10 {
        DigitsBound(n / 10, k - 1);
        TenTimes(n, Power(10, k - 1));
      } else {
        PowerPositive(10, k - 1);
      }
    }
  }

  lemma TenTimes(n: nat, p: nat)
    ensures n / 10 < p <==> n < 10 * p
  {
  }

  lemma {:induction false} PowerPositive(base: nat, n: nat)
    requires base > 0
    ensures Power(base, n) > 0
  {
    if n > 0 {
      PowerPositive(base, n - 1);
    }
  }

  /** The magnitudes that crash the decoder: beyond the range of a double, yet a literal that
      `json.loads` accepts. */
  predicate Unconvertible(j: Json) {
    j.Integer? && FloatOverflow() <= Abs(j.n) < Power(10, MAX_INT_DIGITS)
  }

  /** The decoder is meant to answer 422 to any garbage. Under the amount sort it raises instead
      exactly for a valid id after an integer from `2^1024 - 2^970` up to, and not including,
      `10^4300`. A longer literal is answered 422, as is everything else it refuses. */
  lemma DecodeCrashesExactlyOnUnconvertible(raw: Option<Raw>, sort: Sort)
    ensures Decode(raw, sort) == Crashed <==>
              && sort == NetPnl && raw.Some? && raw.value.Parsed?
              && raw.value.json.Array? && |raw.value.json.items| == 2
              && Unconvertible(raw.value.json.items[0])
              && raw.value.json.items[1].Str? && raw.value.json.items[1].text.uuid.Some?
  {
    hide FloatOverflow, Digits, Power;
    if raw.Some? && raw.value.Parsed? && raw.value.json.Array? && |raw.value.json.items| == 2 {
      var v := raw.value.json.items[0];
      LoadablePair(raw.value.json);
      if v.Integer? {
        DigitsBound(Abs(v.n), MAX_INT_DIGITS);
      }
    }
  }

  /** The two JSON values that `v, i = ...` reads from a cursor. */
  ghost predicate Unpacks(j: Json, v: Json, i: Json) {
    || j == Array([v, i])
    || (j.Object? && |j.entries| == 2 && v == Str(j.entries[0].0) && i == Str(j.entries[1].0))
  }

  /** A missing cursor is the first page. Any other is accepted exactly if it is a JSON text whose
      integers have at most 4300 digits, that unpacks into a value and a string that is a UUID, and
      the value is null, or a number of moderate size under the amount sort, or a string that is an
      instant under the closing-time sort; and then it is read as that value and id. All else but the
      crash is answered 422, never with a page. */
  lemma DecodeAcceptsExactly(raw: Option<Raw>, sort: Sort, cursor: Place)
    ensures Decode(raw, sort) == NoCursor <==> raw.None?
    ensures raw == Some(Broken) ==> Decode(raw, sort) == Rejected
    ensures Decode(raw, sort) == Decoded(cursor) <==>
              && raw.Some? && raw.value.Parsed? && Loadable(raw.value.json)
              && exists v, text :: Unpacks(raw.value.json, v, Str(text)) && text.uuid == Some(cursor.id)
                   && (|| (v == Null && cursor.key == None)
                       || (sort == NetPnl && v.Integer? && Abs(v.n) < FloatOverflow()
                           && cursor.key == Some(v.n as real))
                       || (sort == NetPnl && v.Real? && cursor.key == Some(v.value))
                       || (sort == ClosedAt && v.Str? && v.text.instant.Some? && cursor.key == v.text.instant))
  {
    hide FloatOverflow, Loadable;
    if raw.Some? && raw.value.Parsed? {
      var j := raw.value.json;
      if j.Array? && |j.items| == 2 {
        assert j == Array([j.items[0], j.items[1]]);
        assert Unpacks(j, j.items[0], j.items[1]);
      } else if j.Object? && |j.entries| == 2 {
        assert Unpacks(j, Str(j.entries[0].0), Str(j.entries[1].0));
      }
    }
  }

  /** From `2^1024 - 2^970` on, half a unit in the last place beyond the largest double. */
  lemma OverflowIsBeyondDoubles()
    ensures FloatOverflow() + Power(2, 970) == Power(2, 1024)
  {
    hide Power;
    SmallPowers();
    PowerAdds(2, 970, 54);
    PowerAdds(2, 53, 1);
    OneAndTwo();
    assert Power(2, 1024) == Power(2, 970) * 18014398509481984;
  }

  lemma OneAndTwo()
    ensures Power(2, 1) == 2
  {
    assert Power(2, 1) == 2 * Power(2, 0);
  }

  lemma {:induction false} PowerAdds(base: nat, m: nat, n: nat)
    ensures Power(base, m + n) == Power(base, m) * Power(base, n)
  {
    if m > 0 {
      PowerAdds(base, m - 1, n);
      Associate(base, Power(base, m - 1), Power(base, n));
      assert m + n - 1 == m - 1 + n;
    }
  }

  lemma Associate(a: nat, b: nat, c: nat)
    ensures a * (b * c) == (a * b) * c
  {
  }

  lemma {:induction false} PowerGrows(base: nat, m: nat, n: nat)
    requires base > 0 && m <= n
    ensures Power(base, m) <= Power(base, n)
    decreases n
  {
    if m < n {
      PowerGrows(base, m, n - 1);
      Multiply(1, base, Power(base, n - 1), Power(base, n - 1));
    }
  }

  lemma Multiply(a: nat, b: nat, c: nat, d: nat)
    requires a <= b && c <= d
    ensures a * c <= b * d
  {
    assert a * c <= a * d <= b * d;
  }

  /** `2^93 < 10^28`, eleven times over. */
  lemma {:induction false} TensBeatTwos(k: nat)
    ensures Power(2, 93 * k) <= Power(10, 28 * k)
  {
    if k > 0 {
      TensBeatTwos(k - 1);
      PowerAdds(2, 93, 93 * (k - 1));
      PowerAdds(10, 28, 28 * (k - 1));
      SmallPowers();
      Multiply(Power(2, 93), Power(10, 28), Power(2, 93 * (k - 1)), Power(10, 28 * (k - 1)));
    }
  }

  lemma SmallPowers()
    ensures Power(2, 93) == 9903520314283042199192993792
    ensures Power(10, 28) == 10000000000000000000000000000
    ensures Power(2, 53) == 9007199254740992
  {
    hide Power;
    SmallestPowers();
    PowerAdds(2, 8, 8);
    PowerAdds(2, 16, 16);
    PowerAdds(2, 32, 16);
    PowerAdds(2, 48, 5);
    PowerAdds(2, 53, 32);
    PowerAdds(2, 85, 8);
    PowerAdds(10, 7, 7);
    PowerAdds(10, 14, 14);
  }

  lemma SmallestPowers()
    ensures Power(2, 5) == 32 && Power(2, 8) == 256 && Power(10, 7) == 10000000
  {
    PowerStep(2, 0);
    PowerStep(2, 1);
    PowerStep(2, 2);
    PowerStep(2, 3);
    PowerStep(2, 4);
    PowerStep(2, 5);
    PowerStep(2, 6);
    PowerStep(2, 7);
    PowerStep(10, 0);
    PowerStep(10, 1);
    PowerStep(10, 2);
    PowerStep(10, 3);
    PowerStep(10, 4);
    PowerStep(10, 5);
    PowerStep(10, 6);
  }

  lemma PowerStep(base: nat, n: nat)
    ensures Power(base, n + 1) == base * Power(base, n) && Power(base, 0) == 1
  {
  }

  /** The cursors from `[10^309, id]` to `[10^4299, id]` crash the decoder; `[10^4300, id]` does not. */
  lemma TenToThe309Crashes(id: int)
    ensures var cursor := (n: int) => Some(Parsed(Array([Integer(n), Str(Text(Some(id), None))])));
            && Decode(cursor(Power(10, 309)), NetPnl) == Crashed
            && Decode(cursor(Power(10, 4299)), NetPnl) == Crashed
            && Decode(cursor(Power(10, 4300)), NetPnl) == Rejected
  {
    hide Power, Decode;
    TenTo309Overflows();
    TenToNext(4299);
    PowerGrows(10, 309, 4299);
    IntegerCursor(Power(10, 309), id);
    IntegerCursor(Power(10, 4299), id);
    IntegerCursor(Power(10, 4300), id);
  }

  lemma IntegerCursor(n: nat, id: int)
    requires n >= FloatOverflow()
    ensures Decode(Some(Parsed(Array([Integer(n), Str(Text(Some(id), None))]))), NetPnl)
            == if n < Power(10, 4300) then Crashed else Rejected
  {
    hide Power, Digits, FloatOverflow;
    LoadablePair(Array([Integer(n), Str(Text(Some(id), None))]));
    DigitsBound(n, MAX_INT_DIGITS);
  }

  lemma TenToNext(n: nat)
    ensures Power(10, n) < Power(10, n + 1)
  {
    PowerPositive(10, n);
  }

  lemma TenTo309Overflows()
    ensures FloatOverflow() <= Power(10, 309)
  {
    hide Power;
    TensBeatTwos(11);
    SmallPowers();
    PowerAdds(2, 970, 53);
    PowerAdds(10, 308, 1);
    TenToOne();
    Multiply(Power(2, 1023), Power(10, 308), 2, 10);
  }

  lemma TenToOne()
    ensures Power(10, 1) == 10
  {
    assert Power(10, 1) == 10 * Power(10, 0);
  }

  // ---------------------------------------------------------------------------------
  // Walking through the codec
  // ---------------------------------------------------------------------------------

  /** The cursor the page query receives when the client echoes what it was sent. */
  function Echoed(sort: Sort, next: Option<Place>): Option<Place> {
    match Decode(Encode(sort, next), sort)
    case Decoded(c) => Some(c)
    case _ => None
  }

  /** The cursor the request for page `k` carries. */
  function EchoedAt(sort: Sort, pages: seq<Page>, k: nat): Option<Place>
    requires k <= |pages|
  {
    if k == 0 then None else Echoed(sort, pages[k - 1].next)
  }

  /** A walk whose cursors pass through the codec is a walk. */
  lemma EchoedWalkIsWalk(dbs: seq<Database>, rs: seq<Request>, trip: real -> real, limit: nat, pages: seq<Page>)
    requires |dbs| == |rs| == |pages| > 0 && SameOrder(rs)
    requires forall k :: 0 <= k < |pages| ==>
               ExactPage(dbs[k], rs[k], trip, EchoedAt(rs[0].sort, pages, k), limit, pages[k])
    requires forall k :: 0 <= k < |pages| - 1 ==> pages[k].hasMore
    ensures Walk(dbs, rs, trip, limit, pages)
  {
    hide ExactPage;
    forall k | 0 <= k < |pages|
      ensures EchoedAt(rs[0].sort, pages, k) == CursorAt(pages, k)
    {
      if k > 0 {
        DecodeInvertsEncode(rs[0].sort, pages[k - 1].next);
      }
    }
  }
}
