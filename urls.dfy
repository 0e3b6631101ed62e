/** The parts of Go's net/url package that the provider relies on: the URL record,
    its string form, and url.Values. */
module Urls {

  /** A parsed URL. User information and opaque URLs are not represented. */
  datatype Url = Url(scheme: string, host: string, path: string, rawQuery: string, fragment: string)
  {
    /** `URL.String()`, without percent-escaping. */
    function String(): (r: string)
      ensures r == "" <==> this == Url("", "", "", "", "")
    {
      var authority := if scheme != "" || host != "" then "//" + host else "";
      var slash := if host != "" && path != "" && path[0] != '/' then "/" else "";
      var query := if rawQuery != "" then "?" + rawQuery else "";
      var frag := if fragment != "" then "#" + fragment else "";
      (if scheme != "" then scheme + ":" else "") + authority + slash + path + query + frag
    }
  }

  /** One key/value pair of a query string or form body. */
  type Param = (string, string)

  /** `url.Values`: the pairs added so far, in the order they were added. Go keeps them
      in a map from each key to its values in order; that map is determined by this sequence. */
  class Values {
    var pairs: seq<Param>

    constructor ()
      ensures pairs == []
    {
      pairs := [];
    }

    /** `Values.Add`: appends the value to those of the key. */
    method Add(key: string, value: string)
      modifies this
      ensures pairs == old(pairs) + [(key, value)]
    {
      pairs := pairs + [(key, value)];
    }
  }

  /** The keys of the pairs, in order. */
  function Keys(pairs: seq<Param>): (ks: seq<string>)
    ensures |ks| == |pairs|
    ensures forall i :: 0 <= i < |pairs| ==> ks[i] == pairs[i].0
  {
    if pairs == [] then [] else [pairs[0].0] + Keys(pairs[1..])
  }

  /** `Values.Get`: the first value added for the key, or "" when the key has none. */
  function Get(pairs: seq<Param>, key: string): (r: string)
    ensures key !in Keys(pairs) ==> r == ""
    ensures r != "" ==> (key, r) in pairs
  {
    if pairs == [] then ""
    else if pairs[0].0 == key then pairs[0].1
    else Get(pairs[1..], key)
  }

  /** Get returns the value of the first pair that has the key. */
  lemma {:induction false} GetFirst(pairs: seq<Param>, i: int)
    requires 0 <= i < |pairs|
    requires forall j :: 0 <= j < i ==> pairs[j].0 != pairs[i].0
    ensures Get(pairs, pairs[i].0) == pairs[i].1
  {
    if i > 0 {
      GetFirst(pairs[1..], i - 1);
    }
  }
}
