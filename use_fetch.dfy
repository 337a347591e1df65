/** The generic `useFetch` hook: how it assembles the request URL from the
    endpoint and the query parameters, and how its loading/data/error state
    moves through one run. */
module UseFetch {
  import opened Outcomes

  const LoadDataFailedMessage: string := "Error al cargar los datos"

  /** A query parameter value: a string, a number or a boolean. */
  datatype ParamValue = Str(s: string) | Num(n: int) | Bool(b: bool)

  // ---------------------------------------------------------------------
  // `String(value)`

  predicate IsDigit(c: char) {
    '0' <= c <= '9'
  }

  function DigitChar(d: nat): (c: char)
    requires d < 10
    ensures IsDigit(c) && (c as int) - ('0' as int) == d
  {
    ('0' as int + d) as char
  }

  /** The decimal representation of a natural number: digits only, no
      leading zero. */
  function NatToString(n: nat): (s: string)
    ensures |s| > 0 && (n > 0 ==> s[0] != '0')
    ensures forall i :: 0 <= i < |s| ==> IsDigit(s[i])
  {
    if n < 10 then [DigitChar(n)] else NatToString(n / 10) + [DigitChar(n % 10)]
  }

  /** `String(n)` for an integer number. */
  function IntToString(n: int): string {
    if n < 0 then "-" + NatToString(-n) else NatToString(n)
  }

  /** `String(value)` for each kind of parameter value. */
  function JsString(v: ParamValue): string {
    match v
    case Str(s) => s
    case Num(n) => IntToString(n)
    case Bool(b) => if b then "true" else "false"
  }

  /** Reading a string of digits back as a number. */
  function ParseDigits(s: string): int
    requires forall i :: 0 <= i < |s| ==> IsDigit(s[i])
  {
    if s == [] then 0
    else ParseDigits(s[..|s| - 1]) * 10 + ((s[|s| - 1] as int) - ('0' as int))
  }

  /** `Number(s)` on the strings `IntToString` produces. */
  function ParseInt(s: string): int
    requires |s| > 0
    requires s[0] == '-' ==> forall i :: 1 <= i < |s| ==> IsDigit(s[i])
    requires s[0] != '-' ==> forall i :: 0 <= i < |s| ==> IsDigit(s[i])
  {
    if s[0] == '-' then -ParseDigits(s[1..]) else ParseDigits(s)
  }

  lemma {:induction false} NatToStringRoundTrip(n: nat)
    ensures ParseDigits(NatToString(n)) == n
  {
    if n >= 10 {
      var s := NatToString(n);
      NatToStringRoundTrip(n / 10);
      assert s[..|s| - 1] == NatToString(n / 10);
    } else {
      assert NatToString(n)[..0] == [];
    }
  }

  /** A number converted with `String` reads back as the same number. */
  lemma IntToStringRoundTrip(n: int)
    ensures |IntToString(n)| > 0
    ensures IntToString(n)[0] == '-' <==> n < 0
    ensures ParseInt(IntToString(n)) == n
  {
    if n < 0 {
      NatToStringRoundTrip(-n);
      assert IntToString(n)[1..] == NatToString(-n);
    } else {
      NatToStringRoundTrip(n);
    }
  }

  // ---------------------------------------------------------------------
  // The `reduce` that stringifies the parameters

  /** The position of `key` in an ordered string record, or -1. */
  function KeyIndex(acc: seq<(string, string)>, key: string): (k: int)
    ensures -1 <= k < |acc|
    ensures 0 <= k ==> acc[k].0 == key
    ensures k < 0 ==> forall j :: 0 <= j < |acc| ==> acc[j].0 != key
  {
    if acc == [] then -1
    else if acc[0].0 == key then 0
    else
      var k := KeyIndex(acc[1..], key);
      if k < 0 then -1 else k + 1
  }

  /** `acc[key] = value` on a record kept in property order: an existing
      key keeps its position, a new key goes last. */
  function Put(acc: seq<(string, string)>, key: string, value: string): seq<(string, string)> {
    var k := KeyIndex(acc, key);
    if k < 0 then acc + [(key, value)] else acc[k := (key, value)]
  }

  /** The record the `reduce` builds from `Object.entries(params)`. */
  function StringifyAll(params: seq<(string, ParamValue)>): seq<(string, string)> {
    if params == [] then []
    else
      var last := params[|params| - 1];
      Put(StringifyAll(params[..|params| - 1]), last.0, JsString(last.1))
  }

  function Keys<V>(entries: seq<(string, V)>): set<string> {
    set i | 0 <= i < |entries| :: entries[i].0
  }

  lemma KeysSnoc<V>(entries: seq<(string, V)>, e: (string, V))
    ensures Keys(entries + [e]) == Keys(entries) + {e.0}
  {
    var r := entries + [e];
    forall key | key in Keys(r) ensures key in Keys(entries) + {e.0} {
      var i :| 0 <= i < |r| && r[i].0 == key;
      if i < |entries| {
        assert r[i] == entries[i];
      }
    }
    forall key | key in Keys(entries) ensures key in Keys(r) {
      var i :| 0 <= i < |entries| && entries[i].0 == key;
      assert r[i] == entries[i];
    }
    assert r[|entries|] == e;
  }

  lemma KeysUpdate(acc: seq<(string, string)>, k: int, e: (string, string))
    requires 0 <= k < |acc| && acc[k].0 == e.0
    ensures Keys(acc[k := e]) == Keys(acc)
  {
    var r := acc[k := e];
    forall key | key in Keys(r) ensures key in Keys(acc) {
      var i :| 0 <= i < |r| && r[i].0 == key;
      assert r[i].0 == acc[i].0;
    }
    forall key | key in Keys(acc) ensures key in Keys(r) {
      var i :| 0 <= i < |acc| && acc[i].0 == key;
      assert r[i].0 == acc[i].0;
    }
  }

  /** `acc[key] = value` as a property assignment: the record gains `key`
      and no other key, `key` now holds `value`, and every other entry
      survives. */
  lemma PutAssigns(acc: seq<(string, string)>, key: string, value: string)
    ensures Keys(Put(acc, key, value)) == Keys(acc) + {key}
    ensures (key, value) in Put(acc, key, value)
    ensures forall e :: e in acc && e.0 != key ==> e in Put(acc, key, value)
  {
    var k := KeyIndex(acc, key);
    var r := Put(acc, key, value);
    if k < 0 {
      KeysSnoc(acc, (key, value));
      assert r[|acc|] == (key, value);
    } else {
      KeysUpdate(acc, k, (key, value));
      assert r[k] == (key, value);
      forall e | e in acc && e.0 != key ensures e in r {
        var i :| 0 <= i < |acc| && acc[i] == e;
        assert r[i] == e;
      }
    }
  }

  /** The record has exactly the parameters' keys. */
  lemma {:induction false} StringifyAllKeys(params: seq<(string, ParamValue)>)
    ensures Keys(StringifyAll(params)) == Keys(params)
  {
    if params != [] {
      var init, last := params[..|params| - 1], params[|params| - 1];
      StringifyAllKeys(init);
      assert params == init + [last];
      KeysSnoc(init, last);
      PutAssigns(StringifyAll(init), last.0, JsString(last.1));
    }
  }

  /** No key occurs twice, as in the entries of an object. */
  ghost predicate DistinctKeys<V>(entries: seq<(string, V)>) {
    forall i, j :: 0 <= i < j < |entries| ==> entries[i].0 != entries[j].0
  }

  /** Dropping the last entry keeps the keys distinct. */
  lemma DistinctKeysPrefix<V>(entries: seq<(string, V)>)
    requires DistinctKeys(entries) && entries != []
    ensures DistinctKeys(entries[..|entries| - 1])
  {
    var init := entries[..|entries| - 1];
    forall i, j | 0 <= i < j < |init| ensures init[i].0 != init[j].0 {
      assert init[i] == entries[i] && init[j] == entries[j];
    }
  }

  /** With distinct keys every parameter becomes one entry, in order, with
      its value converted by `String`. */
  lemma {:induction false} StringifyAllDistinct(params: seq<(string, ParamValue)>)
    requires DistinctKeys(params)
    ensures |StringifyAll(params)| == |params|
    ensures forall i :: 0 <= i < |params| ==> StringifyAll(params)[i] == (params[i].0, JsString(params[i].1))
  {
    if params != [] {
      var n := |params| - 1;
      var init, last := params[..n], params[n];
      DistinctKeysPrefix(params);
      StringifyAllDistinct(init);
      var acc := StringifyAll(init);
      assert KeyIndex(acc, last.0) < 0 by {
        forall j | 0 <= j < |acc| ensures acc[j].0 != last.0 {
          assert acc[j].0 == init[j].0 == params[j].0;
        }
      }
      assert StringifyAll(params) == acc + [(last.0, JsString(last.1))];
      forall i | 0 <= i < |params|
        ensures StringifyAll(params)[i] == (params[i].0, JsString(params[i].1))
      {
        if i < n {
          assert init[i] == params[i];
        }
      }
    }
  }

  /** The `reduce` as the hook runs it: one property assignment per entry. */
  method StringifyParams(params: seq<(string, ParamValue)>) returns (acc: seq<(string, string)>)
    ensures acc == StringifyAll(params)
  {
    acc := [];
    var i := 0;
    while i < |params|
      invariant 0 <= i <= |params|
      invariant acc == StringifyAll(params[..i])
    {
      var (key, value) := params[i];
      acc := Put(acc, key, JsString(value));
      assert params[..i + 1][..i] == params[..i];
      i := i + 1;
    }
    assert params[..|params|] == params;
  }

  // ---------------------------------------------------------------------
  // The request URL

  /** The URL the hook fetches: the base, the endpoint as given, and, when a
      parameter object is passed at all, one `?` and the encoded query.
      `encode` stands for `URLSearchParams(...).toString()`. */
  function FetchUrl(endpoint: string, params: Option<seq<(string, ParamValue)>>,
                    encode: seq<(string, string)> -> string): (url: string)
    ensures |url| >= |LocalApiBase + endpoint| && url[..|LocalApiBase + endpoint|] == LocalApiBase + endpoint
    ensures params.None? ==> url == LocalApiBase + endpoint
    ensures params.Some? ==>
              && |url| == |LocalApiBase + endpoint| + 1 + |encode(StringifyAll(params.value))|
              && url[|LocalApiBase + endpoint|] == '?'
              && url[|LocalApiBase + endpoint| + 1..] == encode(StringifyAll(params.value))
  {
    var path := LocalApiBase + endpoint;
    if params.Some? then path + "?" + encode(StringifyAll(params.value)) else path
  }

  /** An empty parameter object still appends the `?`. */
  lemma EmptyParamsKeepQuestionMark(endpoint: string, encode: seq<(string, string)> -> string)
    requires encode([]) == ""
    ensures FetchUrl(endpoint, Some([]), encode) == LocalApiBase + endpoint + "?"
  {
  }

  /** The URL as the hook computes it, reassigning `url`. */
  method RequestUrl(endpoint: string, params: Option<seq<(string, ParamValue)>>,
                    encode: seq<(string, string)> -> string) returns (url: string)
    ensures url == FetchUrl(endpoint, params, encode)
  {
    url := LocalApiBase + endpoint;
    if params.Some? {
      var record := StringifyParams(params.value);
      var query := encode(record);
      url := url + "?" + query;
    }
  }

  // ---------------------------------------------------------------------
  // The hook's state

  class FetchHook<T> {
    var data: Option<T>
    var loading: bool
    var error: Option<string>

    /** The hook's initial state: no data, loading, no error. */
    constructor ()
      ensures data == None && loading && error == None
    {
      data := None;
      loading := true;
      error := None;
    }

    /** The start of every run: loading, error cleared, data kept. */
    method Start()
      modifies this
      ensures loading && error == None && data == old(data)
    {
      loading := true;
      error := None;
    }

    /** The try/catch/finally that settles a run: parsed data is stored; a
        response that is not OK throws `Error("Error al cargar los datos")`;
        the catch block copies the thrown value's `message` (absent when it
        has none); data is kept on failure; `loading` ends false. */
    method Settle(outcome: FetchOutcome<T>)
      modifies this
      ensures !loading
      ensures outcome.Succeeded? ==> data == Some(outcome.data) && error == old(error)
      ensures outcome.NotOk? ==> data == old(data) && error == Some(LoadDataFailedMessage)
      ensures outcome.Threw? ==> data == old(data) && error == outcome.thrown.message
    {
      match outcome {
        case Succeeded(result) =>
          data := Some(result);
        case NotOk =>
          var thrown := ErrorObject(LoadDataFailedMessage);
          error := thrown.message;
        case Threw(t) =>
          error := t.message;
      }
      loading := false;
    }

    /** One run of the effect, with the network given as `respond`; returns
        the URL fetched. */
    method Run(endpoint: string, params: Option<seq<(string, ParamValue)>>,
               encode: seq<(string, string)> -> string, respond: string -> FetchOutcome<T>)
      returns (url: string)
      modifies this
      ensures url == FetchUrl(endpoint, params, encode) && !loading
      ensures respond(url).Succeeded? ==> data == Some(respond(url).data) && error == None
      ensures respond(url).NotOk? ==> data == old(data) && error == Some(LoadDataFailedMessage)
      ensures respond(url).Threw? ==> data == old(data) && error == respond(url).thrown.message
    {
      Start();
      url := RequestUrl(endpoint, params, encode);
      Settle(respond(url));
    }
  }
}
