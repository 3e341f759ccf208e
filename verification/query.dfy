/** Query strings: how the system writes name/value lists into URLs (through
    `URLSearchParams` or by plain concatenation) and how a receiver reads them back
    (split on `&`, then on the first `=`). */
module Query {
  import opened Optional
  import opened Strings

  type Param = (string, string)

  /** A URL under construction: a base with no query, plus the parameters appended
      through `url.searchParams.append`, in order. */
  datatype SearchUrl = SearchUrl(base: string, params: seq<Param>)

  /** The parameter names, in order. */
  function Names(ps: seq<Param>): (r: seq<string>)
    ensures |r| == |ps|
    ensures forall i :: 0 <= i < |ps| ==> r[i] == ps[i].0
  {
    seq(|ps|, i requires 0 <= i < |ps| => ps[i].0)
  }

  /** `URLSearchParams.get(name)`: the value of the first parameter so named. */
  function Lookup(ps: seq<Param>, name: string): (r: Option<string>)
    ensures r.Some? ==> exists i :: 0 <= i < |ps| && ps[i] == (name, r.value)
    ensures r.None? ==> forall i :: 0 <= i < |ps| ==> ps[i].0 != name
  {
    if |ps| == 0 then None
    else if ps[0].0 == name then Some(ps[0].1)
    else
      var r := Lookup(ps[1..], name);
      assert forall i :: 1 <= i < |ps| ==> ps[i] == ps[1..][i - 1];
      r
  }

  /** Names and values passed through an encoder. */
  function Encoded(ps: seq<Param>, enc: string -> string): (r: seq<Param>)
    ensures |r| == |ps|
    ensures forall i :: 0 <= i < |ps| ==> r[i] == (enc(ps[i].0), enc(ps[i].1))
  {
    seq(|ps|, i requires 0 <= i < |ps| => (enc(ps[i].0), enc(ps[i].1)))
  }

  /** The `name=value` pieces joined by `&`, with no encoding. */
  function Raw(ps: seq<Param>): string {
    Join(seq(|ps|, i requires 0 <= i < |ps| => ps[i].0 + "=" + ps[i].1), '&')
  }

  /** The query text `URLSearchParams` produces: every name and value encoded. */
  function Serialize(ps: seq<Param>, enc: string -> string): string {
    Raw(Encoded(ps, enc))
  }

  /** `url.href` of a URL built with `searchParams.append`. */
  function Href(u: SearchUrl, enc: string -> string): string {
    if |u.params| == 0 then u.base else u.base + "?" + Serialize(u.params, enc)
  }

  /** A single parameter is written as `name=value`. */
  lemma RawOne(p: Param)
    ensures Raw([p]) == p.0 + "=" + p.1
  {
  }

  /** A parameter in front of others is written `name=value&` before them. */
  lemma RawCons(p: Param, ps: seq<Param>)
    requires |ps| >= 1
    ensures Raw([p] + ps) == p.0 + "=" + p.1 + "&" + Raw(ps)
  {
    var all := [p] + ps;
    var pieces := seq(|all|, i requires 0 <= i < |all| => all[i].0 + "=" + all[i].1);
    var rest := seq(|ps|, i requires 0 <= i < |ps| => ps[i].0 + "=" + ps[i].1);
    assert pieces[1..] == rest;
  }

  /** A parameter after others is written `&name=value` after them. */
  lemma RawSnoc(ps: seq<Param>, p: Param)
    requires |ps| >= 1
    ensures Raw(ps + [p]) == Raw(ps) + "&" + p.0 + "=" + p.1
  {
    var all := ps + [p];
    var pieces := seq(|all|, i requires 0 <= i < |all| => all[i].0 + "=" + all[i].1);
    var front := seq(|ps|, i requires 0 <= i < |ps| => ps[i].0 + "=" + ps[i].1);
    assert pieces == front + [p.0 + "=" + p.1];
    Strings.JoinSnoc(front, p.0 + "=" + p.1, '&');
  }

  /** A URL written as `base`, then `?name=` and the value, is `base` with that one
      parameter in raw form. */
  lemma RawUrlOne(base: string, lit: string, p: Param)
    requires lit == "?" + p.0 + "="
    ensures base + lit + p.1 == base + "?" + Raw([p])
  {
    RawOne(p);
  }

  /** Appending `&name=` and the value to a URL in raw form adds that parameter at
      the end of its query. */
  lemma RawUrlSnoc(base: string, ps: seq<Param>, lit: string, p: Param)
    requires |ps| >= 1
    requires lit == "&" + p.0 + "="
    ensures base + "?" + Raw(ps) + lit + p.1 == base + "?" + Raw(ps + [p])
  {
    RawSnoc(ps, p);
  }

  /** `Lookup` finds the first parameter with the name. */
  lemma {:induction false} LookupAt(ps: seq<Param>, i: nat, name: string)
    requires i < |ps| && ps[i].0 == name
    requires forall j :: 0 <= j < i ==> ps[j].0 != name
    ensures Lookup(ps, name) == Some(ps[i].1)
  {
    if i > 0 {
      LookupAt(ps[1..], i - 1, name);
    }
  }

  /** Reads one `name=value` piece; a piece without `=` has the empty value. */
  function ReadPiece(piece: string): Param {
    var (name, value) := SplitFirst(piece, '=');
    (name, value.GetOr(""))
  }

  /** Reads a query text back into its parameters, without decoding them. */
  function Pairs(q: string): seq<Param> {
    var pieces := Split(q, '&');
    seq(|pieces|, i requires 0 <= i < |pieces| => ReadPiece(pieces[i]))
  }

  /** The parameters of a URL: those of the text after its first `?`. */
  function QueryOf(url: string): seq<Param> {
    match SplitFirst(url, '?').1
    case None => []
    case Some(q) => Pairs(q)
  }

  /** A parameter list a reader recovers exactly from its raw text: no name holds
      `=` or `&` and no value holds `&`. */
  predicate Delimited(ps: seq<Param>) {
    forall i :: 0 <= i < |ps| ==> '=' !in ps[i].0 && '&' !in ps[i].0 && '&' !in ps[i].1
  }

  /** Reading a raw query gives back the parameters it was written from. */
  lemma {:induction false} PairsOfRaw(ps: seq<Param>)
    requires |ps| >= 1
    requires Delimited(ps)
    ensures Pairs(Raw(ps)) == ps
  {
    var pieces := seq(|ps|, i requires 0 <= i < |ps| => ps[i].0 + "=" + ps[i].1);
    forall i | 0 <= i < |pieces|
      ensures '&' !in pieces[i]
    {
      assert pieces[i] == ps[i].0 + ['='] + ps[i].1;
    }
    SplitJoin(pieces, '&');
    forall i | 0 <= i < |pieces|
      ensures ReadPiece(pieces[i]) == ps[i]
    {
      SplitFirstAt(ps[i].0, ps[i].1, '=');
    }
  }

  /** A URL read back by a receiver yields its parameters as `URLSearchParams`
      encoded them, provided the encoder never writes the delimiters `&` and `=`
      (the form-urlencoded serializer percent-encodes both). */
  lemma HrefRoundTrip(u: SearchUrl, enc: string -> string)
    requires |u.params| >= 1
    requires '?' !in u.base
    requires forall i :: 0 <= i < |u.params| ==>
      '&' !in enc(u.params[i].0) && '=' !in enc(u.params[i].0) && '&' !in enc(u.params[i].1)
    ensures QueryOf(Href(u, enc)) == Encoded(u.params, enc)
  {
    var e := Encoded(u.params, enc);
    PairsOfRaw(e);
    SplitFirstAt(u.base, Serialize(u.params, enc), '?');
  }

  /** Reading back a URL whose base has no `?` and whose query is written raw. */
  lemma RawUrlRoundTrip(base: string, ps: seq<Param>)
    requires |ps| >= 1
    requires '?' !in base
    requires Delimited(ps)
    ensures QueryOf(base + "?" + Raw(ps)) == ps
  {
    PairsOfRaw(ps);
    SplitFirstAt(base, Raw(ps), '?');
  }
}
