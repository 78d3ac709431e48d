/**
 The cURL option set a request is made with. Each helper builds a fixed array
 of defaults, merges the caller's options over it with PHP's `+` (the caller's
 entries come first and win on shared keys; defaults only fill gaps), and then
 assigns the serialised header list to `CURLOPT_HTTPHEADER`, which no caller
 option can override.
 */
module CurlOptions {
  import opened PhpArray
  import Headers

  /** The cURL option keys the helpers set; `Other` stands for every other
      option a caller may pass, identified by its own code. */
  datatype Key =
    | Url
    | ReturnTransfer
    | ConnectTimeout
    | FollowLocation
    | SslVerifyHost
    | SslVerifyPeer
    | CustomRequest
    | PostFields
    | HttpHeader
    | Other(code: int)

  /** Option values: strings, integers, booleans and lists of strings. */
  datatype Value = VStr(s: string) | VInt(i: int) | VBool(b: bool) | VList(items: seq<string>)

  /** An option array, as passed to `curl_setopt_array`. */
  type Options = seq<(Key, Value)>

  /** The body of a POST: a string already encoded by the caller, or an array
      of fields that must be form-encoded. */
  datatype PostData = Raw(body: string) | Fields(fields: seq<(string, string)>)

  /** Seconds allowed for connecting, unless the caller says otherwise. */
  const ConnectTimeoutSeconds: int := 10

  /** `CURLOPT_SSL_VERIFYHOST` level that checks the certificate's name
      against the host. */
  const VerifyHostStrict: int := 2

  /** `CURLOPT_SSL_VERIFYHOST` level that skips the name check. */
  const VerifyHostOff: int := 0

  /** The method keyword the POST helper forces. */
  const PostMethod: string := "POST"

  /** The keys the GET defaults set. */
  predicate GetDefaultKey(k: Key)
  {
    k.Url? || k.ReturnTransfer? || k.ConnectTimeout? || k.FollowLocation? || k.SslVerifyHost? || k.SslVerifyPeer?
  }

  /** The keys the POST defaults set. */
  predicate PostDefaultKey(k: Key)
  {
    k.Url? || k.ReturnTransfer? || k.ConnectTimeout? || k.CustomRequest? || k.SslVerifyHost? || k.SslVerifyPeer?
    || k.PostFields?
  }

  /** The host-check level selected by the TLS toggle. */
  function VerifyHostLevel(sslVerify: bool): int
  {
    if sslVerify then VerifyHostStrict else VerifyHostOff
  }

  /** The body a POST sends by default: a string verbatim, an array of fields
      through the form encoder (PHP's `http_build_query`, whose encoding is a
      parameter here). */
  function PostBody(data: PostData, formEncode: seq<(string, string)> -> string): (b: string)
    ensures data.Raw? ==> b == data.body
    ensures data.Fields? ==> b == formEncode(data.fields)
  {
    match data
    case Raw(body) => body
    case Fields(fields) => formEncode(fields)
  }

  /** The default array of the GET helper, in its source order: six
      entries, one for each GET default key. */
  function GetDefaults(url: string, sslVerify: bool): (d: Options)
    ensures |d| == 6 && Distinct(d)
    ensures forall i :: 0 <= i < |d| ==> GetDefaultKey(d[i].0)
  {
    [ (Url, VStr(url)),
      (ReturnTransfer, VInt(1)),
      (ConnectTimeout, VInt(ConnectTimeoutSeconds)),
      (FollowLocation, VBool(true)),
      (SslVerifyHost, VInt(VerifyHostLevel(sslVerify))),
      (SslVerifyPeer, VBool(sslVerify)) ]
  }

  /** The default array of the POST helper, in its source order: seven
      entries, one for each POST default key. */
  function PostDefaults(url: string, data: PostData, sslVerify: bool,
                        formEncode: seq<(string, string)> -> string): (d: Options)
    ensures |d| == 7 && Distinct(d)
    ensures forall i :: 0 <= i < |d| ==> PostDefaultKey(d[i].0)
  {
    [ (Url, VStr(url)),
      (ReturnTransfer, VInt(1)),
      (ConnectTimeout, VInt(ConnectTimeoutSeconds)),
      (CustomRequest, VStr(PostMethod)),
      (SslVerifyHost, VInt(VerifyHostLevel(sslVerify))),
      (SslVerifyPeer, VBool(sslVerify)),
      (PostFields, VStr(PostBody(data, formEncode))) ]
  }

  /** The keys of the GET defaults. */
  lemma GetDefaultsKeys(url: string, sslVerify: bool)
    ensures forall k :: k in ToMap(GetDefaults(url, sslVerify)) <==> GetDefaultKey(k)
  {
    var d := GetDefaults(url, sslVerify);
    ToMapKeys(d);
    assert KeysOf(d) == [Url, ReturnTransfer, ConnectTimeout, FollowLocation, SslVerifyHost, SslVerifyPeer];
  }

  /** The values of the GET defaults. */
  lemma GetDefaultsValues(url: string, sslVerify: bool)
    ensures var m := ToMap(GetDefaults(url, sslVerify));
      && Url in m && m[Url] == VStr(url)
      && ReturnTransfer in m && m[ReturnTransfer] == VInt(1)
      && ConnectTimeout in m && m[ConnectTimeout] == VInt(ConnectTimeoutSeconds)
      && FollowLocation in m && m[FollowLocation] == VBool(true)
      && SslVerifyHost in m && m[SslVerifyHost] == VInt(VerifyHostLevel(sslVerify))
      && SslVerifyPeer in m && m[SslVerifyPeer] == VBool(sslVerify)
  {
    var d := GetDefaults(url, sslVerify);
    assert Distinct(d);
    ToMapAt(d, 0);
    ToMapAt(d, 1);
    ToMapAt(d, 2);
    ToMapAt(d, 3);
    ToMapAt(d, 4);
    ToMapAt(d, 5);
  }

  /** The keys of the POST defaults. */
  lemma PostDefaultsKeys(url: string, data: PostData, sslVerify: bool,
                         formEncode: seq<(string, string)> -> string)
    ensures forall k :: k in ToMap(PostDefaults(url, data, sslVerify, formEncode)) <==> PostDefaultKey(k)
  {
    var d := PostDefaults(url, data, sslVerify, formEncode);
    ToMapKeys(d);
    assert KeysOf(d) == [Url, ReturnTransfer, ConnectTimeout, CustomRequest, SslVerifyHost, SslVerifyPeer, PostFields];
  }

  /** The values of the POST defaults. */
  lemma PostDefaultsValues(url: string, data: PostData, sslVerify: bool,
                           formEncode: seq<(string, string)> -> string)
    ensures var m := ToMap(PostDefaults(url, data, sslVerify, formEncode));
      && Url in m && m[Url] == VStr(url)
      && ReturnTransfer in m && m[ReturnTransfer] == VInt(1)
      && ConnectTimeout in m && m[ConnectTimeout] == VInt(ConnectTimeoutSeconds)
      && CustomRequest in m && m[CustomRequest] == VStr(PostMethod)
      && SslVerifyHost in m && m[SslVerifyHost] == VInt(VerifyHostLevel(sslVerify))
      && SslVerifyPeer in m && m[SslVerifyPeer] == VBool(sslVerify)
      && PostFields in m && m[PostFields] == VStr(PostBody(data, formEncode))
  {
    var d := PostDefaults(url, data, sslVerify, formEncode);
    assert Distinct(d);
    ToMapAt(d, 0);
    ToMapAt(d, 1);
    ToMapAt(d, 2);
    ToMapAt(d, 3);
    ToMapAt(d, 4);
    ToMapAt(d, 5);
    ToMapAt(d, 6);
  }

  /** The effective option set: the caller's options united with the defaults
      by PHP's `+`, then the header list assigned to the `HttpHeader` key. Its
      map is the caller's map laid over the defaults, with the header list
      written last. */
  function Effective(defaults: Options, headers: seq<Headers.Header>, options: Options): (r: Options)
    ensures ToMap(r) == (ToMap(defaults) + ToMap(options))[HttpHeader := VList(Headers.Lines(headers))]
  {
    var merged := Union(options, defaults);
    var h := VList(Headers.Lines(headers));
    UnionMap(options, defaults);
    AssignMap(merged, HttpHeader, h);
    Assign(merged, HttpHeader, h)
  }

  /** The caller's options keep their place at the front of the option array,
      in their order; all but a caller `HttpHeader` entry keep their value. */
  lemma EffectiveOrder(defaults: Options, headers: seq<Headers.Header>, options: Options)
    ensures var r := Effective(defaults, headers, options);
      && |options| <= |r| && KeysOf(r)[..|options|] == KeysOf(options)
      && forall i :: 0 <= i < |options| && options[i].0 != HttpHeader ==> r[i] == options[i]
  {
    var merged := Union(options, defaults);
    var h := VList(Headers.Lines(headers));
    AssignKeys(merged, HttpHeader, h);
    assert KeysOf(merged)[..|options|] == KeysOf(options) by {
      assert merged[..|options|] == options;
    }
  }

  /** Merging two PHP arrays and assigning the header list yields a PHP array. */
  lemma EffectiveDistinct(defaults: Options, headers: seq<Headers.Header>, options: Options)
    requires Distinct(options) && Distinct(defaults)
    ensures Distinct(Effective(defaults, headers, options))
  {
    var merged := Union(options, defaults);
    UnionDistinct(options, defaults);
    AssignDistinct(merged, HttpHeader, VList(Headers.Lines(headers)));
  }

  /** Caller precedence, default fill, header override and key set of the
      merge, stated key by key. */
  lemma EffectiveByKey(defaults: Options, headers: seq<Headers.Header>, options: Options)
    ensures forall k :: k in ToMap(Effective(defaults, headers, options)) <==>
      k in ToMap(options) || k in ToMap(defaults) || k == HttpHeader
    ensures ToMap(Effective(defaults, headers, options))[HttpHeader] == VList(Headers.Lines(headers))
    ensures forall k :: k in ToMap(options) && k != HttpHeader ==>
      ToMap(Effective(defaults, headers, options))[k] == ToMap(options)[k]
    ensures forall k :: k in ToMap(defaults) && k !in ToMap(options) && k != HttpHeader ==>
      ToMap(Effective(defaults, headers, options))[k] == ToMap(defaults)[k]
  {
  }

  /** Laying a map over `d` and then writing `HttpHeader` does not depend on
      what the laid-over map held under `HttpHeader`. */
  lemma OverlayIgnoresHeader(d: map<Key, Value>, o: map<Key, Value>, o2: map<Key, Value>, h: Value)
    requires forall k :: k in o2 <==> k in o && k != HttpHeader
    requires forall k :: k in o2 ==> o2[k] == o[k]
    ensures (d + o)[HttpHeader := h] == (d + o2)[HttpHeader := h]
  {
    var m1 := (d + o)[HttpHeader := h];
    var m2 := (d + o2)[HttpHeader := h];
    assert m1.Keys == m2.Keys;
    forall k | k in m1
      ensures m1[k] == m2[k]
    {
    }
  }

  /** A `CURLOPT_HTTPHEADER` option from the caller has no effect on the
      option set: dropping it beforehand gives the same map. */
  lemma CallerHeaderIgnored(defaults: Options, headers: seq<Headers.Header>, options: Options)
    ensures ToMap(Effective(defaults, headers, options)) ==
            ToMap(Effective(defaults, headers, Without(options, [HttpHeader])))
  {
    var o := ToMap(options);
    var o2 := ToMap(Without(options, [HttpHeader]));
    WithoutMap(options, [HttpHeader]);
    OverlayIgnoresHeader(ToMap(defaults), o, o2, VList(Headers.Lines(headers)));
  }

  /** The option set of a GET. The header array, the caller's options and
      the TLS toggle default to none, none and on, as in the helper's
      signature. The caller's options lead the array in their order, and no
      key is repeated unless the caller repeated one. */
  function GetOptions(url: string, headers: seq<Headers.Header> := [], options: Options := [],
                      sslVerify: bool := true): (r: Options)
    ensures |options| <= |r| && KeysOf(r)[..|options|] == KeysOf(options)
    ensures Distinct(options) ==> Distinct(r)
  {
    var d := GetDefaults(url, sslVerify);
    EffectiveOrder(d, headers, options);
    if Distinct(options) then
      EffectiveDistinct(d, headers, options);
      Effective(d, headers, options)
    else
      Effective(d, headers, options)
  }

  /** A GET sets exactly the caller's options, the GET defaults and the
      header list: nothing else is added. */
  lemma GetKeySet(url: string, headers: seq<Headers.Header>, options: Options, sslVerify: bool)
    ensures forall k :: k in ToMap(GetOptions(url, headers, options, sslVerify)) <==>
      k in ToMap(options) || GetDefaultKey(k) || k == HttpHeader
  {
    GetDefaultsKeys(url, sslVerify);
    EffectiveByKey(GetDefaults(url, sslVerify), headers, options);
  }

  /** Every option the caller passes wins over the GET default, except the
      header list, which is always the one serialised from `headers`. */
  lemma GetCallerWins(url: string, headers: seq<Headers.Header>, options: Options, sslVerify: bool)
    ensures var m := ToMap(GetOptions(url, headers, options, sslVerify));
      && HttpHeader in m && m[HttpHeader] == VList(Headers.Lines(headers))
      && forall k :: k in ToMap(options) && k != HttpHeader ==> k in m && m[k] == ToMap(options)[k]
  {
    EffectiveByKey(GetDefaults(url, sslVerify), headers, options);
  }

  /** Every GET default the caller left unset is present with its default
      value; in particular the TLS toggle selects the strict host check and
      peer verification, or turns both off. */
  lemma GetDefaultFill(url: string, headers: seq<Headers.Header>, options: Options, sslVerify: bool)
    ensures var m := ToMap(GetOptions(url, headers, options, sslVerify));
      && (Url !in ToMap(options) ==> Url in m && m[Url] == VStr(url))
      && (ReturnTransfer !in ToMap(options) ==> ReturnTransfer in m && m[ReturnTransfer] == VInt(1))
      && (ConnectTimeout !in ToMap(options) ==>
            ConnectTimeout in m && m[ConnectTimeout] == VInt(ConnectTimeoutSeconds))
      && (FollowLocation !in ToMap(options) ==> FollowLocation in m && m[FollowLocation] == VBool(true))
      && (SslVerifyHost !in ToMap(options) ==>
            SslVerifyHost in m && m[SslVerifyHost] == VInt(if sslVerify then VerifyHostStrict else VerifyHostOff))
      && (SslVerifyPeer !in ToMap(options) ==> SslVerifyPeer in m && m[SslVerifyPeer] == VBool(sslVerify))
  {
    GetDefaultsValues(url, sslVerify);
    EffectiveByKey(GetDefaults(url, sslVerify), headers, options);
  }

  /** A GET never sets the POST-only options on its own. */
  lemma GetHasNoPostOptions(url: string, headers: seq<Headers.Header>, options: Options, sslVerify: bool)
    ensures CustomRequest in ToMap(GetOptions(url, headers, options, sslVerify)) <==> CustomRequest in ToMap(options)
    ensures PostFields in ToMap(GetOptions(url, headers, options, sslVerify)) <==> PostFields in ToMap(options)
  {
    var r := GetOptions(url, headers, options, sslVerify);
    assert r == Effective(GetDefaults(url, sslVerify), headers, options);
    GetDefaultsKeys(url, sslVerify);
    EffectiveByKey(GetDefaults(url, sslVerify), headers, options);
  }

  /** The option set of a POST, with the same defaults for the optional
      arguments as GET. The caller's options lead the array in their order,
      and no key is repeated unless the caller repeated one. */
  function PostOptions(url: string, data: PostData, headers: seq<Headers.Header> := [], options: Options := [],
                       sslVerify: bool := true, formEncode: seq<(string, string)> -> string): (r: Options)
    ensures |options| <= |r| && KeysOf(r)[..|options|] == KeysOf(options)
    ensures Distinct(options) ==> Distinct(r)
  {
    var d := PostDefaults(url, data, sslVerify, formEncode);
    EffectiveOrder(d, headers, options);
    if Distinct(options) then
      EffectiveDistinct(d, headers, options);
      Effective(d, headers, options)
    else
      Effective(d, headers, options)
  }

  /** A POST sets exactly the caller's options, the POST defaults and the
      header list: nothing else is added. */
  lemma PostKeySet(url: string, data: PostData, headers: seq<Headers.Header>, options: Options,
                   sslVerify: bool, formEncode: seq<(string, string)> -> string)
    ensures forall k :: k in ToMap(PostOptions(url, data, headers, options, sslVerify, formEncode)) <==>
      k in ToMap(options) || PostDefaultKey(k) || k == HttpHeader
  {
    PostDefaultsKeys(url, data, sslVerify, formEncode);
    EffectiveByKey(PostDefaults(url, data, sslVerify, formEncode), headers, options);
  }

  /** Every option the caller passes wins over the POST default, except the
      header list, which is always the one serialised from `headers`. */
  lemma PostCallerWins(url: string, data: PostData, headers: seq<Headers.Header>, options: Options,
                       sslVerify: bool, formEncode: seq<(string, string)> -> string)
    ensures var m := ToMap(PostOptions(url, data, headers, options, sslVerify, formEncode));
      && HttpHeader in m && m[HttpHeader] == VList(Headers.Lines(headers))
      && forall k :: k in ToMap(options) && k != HttpHeader ==> k in m && m[k] == ToMap(options)[k]
  {
    EffectiveByKey(PostDefaults(url, data, sslVerify, formEncode), headers, options);
  }

  /** Every POST default the caller left unset is present with its default
      value: the method forced to POST, the body taken verbatim from a string
      or form-encoded from an array, and the same TLS toggle as GET. */
  lemma PostDefaultFill(url: string, data: PostData, headers: seq<Headers.Header>, options: Options,
                        sslVerify: bool, formEncode: seq<(string, string)> -> string)
    ensures var m := ToMap(PostOptions(url, data, headers, options, sslVerify, formEncode));
      && (Url !in ToMap(options) ==> Url in m && m[Url] == VStr(url))
      && (ReturnTransfer !in ToMap(options) ==> ReturnTransfer in m && m[ReturnTransfer] == VInt(1))
      && (ConnectTimeout !in ToMap(options) ==>
            ConnectTimeout in m && m[ConnectTimeout] == VInt(ConnectTimeoutSeconds))
      && (CustomRequest !in ToMap(options) ==> CustomRequest in m && m[CustomRequest] == VStr(PostMethod))
      && (SslVerifyHost !in ToMap(options) ==>
            SslVerifyHost in m && m[SslVerifyHost] == VInt(if sslVerify then VerifyHostStrict else VerifyHostOff))
      && (SslVerifyPeer !in ToMap(options) ==> SslVerifyPeer in m && m[SslVerifyPeer] == VBool(sslVerify))
      && (PostFields !in ToMap(options) ==>
            PostFields in m && m[PostFields] == VStr(if data.Raw? then data.body else formEncode(data.fields)))
  {
    PostDefaultsValues(url, data, sslVerify, formEncode);
    EffectiveByKey(PostDefaults(url, data, sslVerify, formEncode), headers, options);
  }

  /** A POST never turns on redirect following on its own. */
  lemma PostHasNoFollowLocation(url: string, data: PostData, headers: seq<Headers.Header>, options: Options,
                                sslVerify: bool, formEncode: seq<(string, string)> -> string)
    ensures FollowLocation in ToMap(PostOptions(url, data, headers, options, sslVerify, formEncode))
        <==> FollowLocation in ToMap(options)
  {
    var r := PostOptions(url, data, headers, options, sslVerify, formEncode);
    assert r == Effective(PostDefaults(url, data, sslVerify, formEncode), headers, options);
    PostDefaultsKeys(url, data, sslVerify, formEncode);
    EffectiveByKey(PostDefaults(url, data, sslVerify, formEncode), headers, options);
  }

  /** Keys on which only one of the helpers sets a default. */
  predicate MethodSpecific(k: Key)
  {
    k.FollowLocation? || k.CustomRequest? || k.PostFields?
  }

  /** Apart from the method-specific keys, the GET and POST defaults agree. */
  lemma DefaultsAgree(url: string, data: PostData, sslVerify: bool,
                      formEncode: seq<(string, string)> -> string, k: Key)
    requires !MethodSpecific(k)
    ensures var g := ToMap(GetDefaults(url, sslVerify));
            var p := ToMap(PostDefaults(url, data, sslVerify, formEncode));
      (k in g <==> k in p) && (k in g ==> g[k] == p[k])
  {
    var g := ToMap(GetDefaults(url, sslVerify));
    var p := ToMap(PostDefaults(url, data, sslVerify, formEncode));
    assert k in g <==> k in p by {
      GetDefaultsKeys(url, sslVerify);
      PostDefaultsKeys(url, data, sslVerify, formEncode);
    }
    if k in g {
      assert GetDefaultKey(k) by {
        GetDefaultsKeys(url, sslVerify);
      }
      GetDefaultsValues(url, sslVerify);
      PostDefaultsValues(url, data, sslVerify, formEncode);
    }
  }

  /** Two merges that start from defaults agreeing on `k` agree on `k`. */
  lemma EffectiveAgree(d1: Options, d2: Options, headers: seq<Headers.Header>, options: Options, k: Key)
    requires k in ToMap(d1) <==> k in ToMap(d2)
    requires k in ToMap(d1) ==> ToMap(d1)[k] == ToMap(d2)[k]
    ensures var e1 := ToMap(Effective(d1, headers, options));
            var e2 := ToMap(Effective(d2, headers, options));
      (k in e1 <==> k in e2) && (k in e1 ==> e1[k] == e2[k])
  {
  }

  /** The two helpers differ only in their method-specific options: GET adds
      redirect following, POST the method override and the body. On every
      other key both option sets agree. */
  lemma GetPostAgree(url: string, data: PostData, headers: seq<Headers.Header>, options: Options,
                     sslVerify: bool, formEncode: seq<(string, string)> -> string)
    ensures var g := ToMap(GetOptions(url, headers, options, sslVerify));
            var p := ToMap(PostOptions(url, data, headers, options, sslVerify, formEncode));
      forall k :: !MethodSpecific(k) ==> (k in g <==> k in p) && (k in g ==> g[k] == p[k])
  {
    var dg := GetDefaults(url, sslVerify);
    var dp := PostDefaults(url, data, sslVerify, formEncode);
    assert GetOptions(url, headers, options, sslVerify) == Effective(dg, headers, options);
    assert PostOptions(url, data, headers, options, sslVerify, formEncode) == Effective(dp, headers, options);
    forall k | !MethodSpecific(k)
      ensures var e1 := ToMap(Effective(dg, headers, options));
              var e2 := ToMap(Effective(dp, headers, options));
        (k in e1 <==> k in e2) && (k in e1 ==> e1[k] == e2[k])
    {
      DefaultsAgree(url, data, sslVerify, formEncode, k);
      EffectiveAgree(dg, dp, headers, options, k);
    }
  }

  /** A GET called with only a URL sends no headers, keeps every GET default
      and verifies TLS: the strict host check and peer verification. */
  lemma PlainGet(url: string)
    ensures var m := ToMap(GetOptions(url));
      && (forall k :: k in m <==> GetDefaultKey(k) || k == HttpHeader)
      && m[HttpHeader] == VList([])
      && m[SslVerifyHost] == VInt(VerifyHostStrict) && m[SslVerifyPeer] == VBool(true)
  {
    GetKeySet(url, [], [], true);
    GetCallerWins(url, [], [], true);
    GetDefaultFill(url, [], [], true);
  }

  /** A POST called with only a URL and a body sends no headers, keeps every
      POST default and verifies TLS: the strict host check and peer
      verification. */
  lemma PlainPost(url: string, data: PostData, formEncode: seq<(string, string)> -> string)
    ensures var m := ToMap(PostOptions(url, data, formEncode := formEncode));
      && (forall k :: k in m <==> PostDefaultKey(k) || k == HttpHeader)
      && m[HttpHeader] == VList([])
      && m[SslVerifyHost] == VInt(VerifyHostStrict) && m[SslVerifyPeer] == VBool(true)
  {
    PostKeySet(url, data, [], [], true, formEncode);
    PostCallerWins(url, data, [], [], true, formEncode);
    PostDefaultFill(url, data, [], [], true, formEncode);
  }
}
