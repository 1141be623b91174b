/** The Source value object: the metadata of an API response, reduced to one
    value per header, and the response body. */
module Sources {
  import opened Values
  import opened Decimal

  /** Response headers as the transport gives them: every value list of a
      header, under its lower-cased name. */
  type Headers = map<string, seq<string>>

  /** `array_combine(array_keys($h), array_column($h, 0))` succeeds exactly
      when every header has a first value; otherwise the two arrays differ in
      length and PHP raises a ValueError. */
  predicate EveryHeaderHasValue(headers: Headers)
  {
    forall k :: k in headers ==> |headers[k]| > 0
  }

  /** The first value of every header. */
  function FirstValues(headers: Headers): (meta: map<string, string>)
    requires EveryHeaderHasValue(headers)
    ensures meta.Keys == headers.Keys
    ensures forall k :: k in meta ==> meta[k] == headers[k][0]
  {
    map k | k in headers :: headers[k][0]
  }

  /** A header map with one value per header, the form FirstValues reduces to. */
  function SingleValued(meta: map<string, string>): (headers: Headers)
    ensures headers.Keys == meta.Keys
    ensures forall k :: k in headers ==> headers[k] == [meta[k]]
  {
    map k | k in meta :: [meta[k]]
  }

  /** The constructor; None stands for the ValueError of `array_combine`. */
  function NewSource(headers: Headers, data: string): (r: Option<Source>)
    ensures r.Some? <==> EveryHeaderHasValue(headers)
    ensures r.Some? ==> r.value.meta.Keys == headers.Keys && r.value.data == data
    ensures r.Some? ==> forall k :: k in headers ==> r.value.meta[k] == headers[k][0]
  {
    if EveryHeaderHasValue(headers) then Some(Source(FirstValues(headers), data)) else None
  }

  /** Reduction is the inverse of spreading each value into a one-element list. */
  lemma NewSourceOfSingleValued(meta: map<string, string>, data: string)
    ensures NewSource(SingleValued(meta), data) == Some(Source(meta, data))
  {
    var r := NewSource(SingleValued(meta), data);
    assert r.Some?;
    assert r.value.meta == meta;
  }

  /** Extra values of a repeated header are dropped: only the first is kept. */
  lemma {:induction false} LaterValuesIgnored(headers: Headers, key: string, extra: seq<string>, data: string)
    requires key in headers && |headers[key]| > 0
    ensures NewSource(headers[key := headers[key] + extra], data) == NewSource(headers, data)
  {
    var h2 := headers[key := headers[key] + extra];
    forall k | k in h2 ensures |h2[k]| >= |headers[k]| {
    }
    assert EveryHeaderHasValue(h2) <==> EveryHeaderHasValue(headers);
    if EveryHeaderHasValue(headers) {
      assert FirstValues(h2) == FirstValues(headers);
    }
  }

  datatype Source = Source(meta: map<string, string>, data: string)
  {
    /** `toBuffer`: the body the source was built with. */
    function ToBuffer(): (r: string)
      ensures r == data
    {
      data
    }

    /** `intval` of a header, 0 when the header is absent (PHP reads the
        missing key as null and `intval(null)` is 0). A header holding a
        printed integer gives that integer back. */
    function IntHeader(key: string): (n: int)
      ensures key !in meta ==> n == 0
      ensures key in meta ==> n == IntVal(meta[key])
      ensures forall v {:trigger Show(v)} :: key in meta && meta[key] == Show(v) ==> n == v
    {
      if key in meta then IntValInvertsShow(); IntVal(meta[key]) else 0
    }

    /** `getSize`: `intval` of `content-length`. */
    function Size(): (n: int)
      ensures "content-length" !in meta ==> n == 0
      ensures "content-length" in meta ==> n == IntVal(meta["content-length"])
      ensures forall v {:trigger Show(v)} :: "content-length" in meta && meta["content-length"] == Show(v) ==> n == v
    {
      IntHeader("content-length")
    }

    /** `getMediaType`: the `content-type` value verbatim; None stands for the
        TypeError PHP raises when the header is absent and null is returned
        from a method declared to return string. */
    function MediaType(): (r: Option<string>)
      ensures r.Some? <==> "content-type" in meta
      ensures r.Some? ==> r.value == meta["content-type"]
    {
      if "content-type" in meta then Some(meta["content-type"]) else None
    }

    /** `getWidth`: `intval` of `image-width`. */
    function Width(): (n: int)
      ensures "image-width" !in meta ==> n == 0
      ensures "image-width" in meta ==> n == IntVal(meta["image-width"])
      ensures forall v {:trigger Show(v)} :: "image-width" in meta && meta["image-width"] == Show(v) ==> n == v
    {
      IntHeader("image-width")
    }

    /** `getHeight`: `intval` of `image-height`. */
    function Height(): (n: int)
      ensures "image-height" !in meta ==> n == 0
      ensures "image-height" in meta ==> n == IntVal(meta["image-height"])
      ensures forall v {:trigger Show(v)} :: "image-height" in meta && meta["image-height"] == Show(v) ==> n == v
    {
      IntHeader("image-height")
    }

    /** `getLocation`: the `location` value, null (None) when absent. */
    function Location(): (r: Option<string>)
      ensures r.Some? <==> "location" in meta
      ensures r.Some? ==> r.value == meta["location"]
    {
      if "location" in meta then Some(meta["location"]) else None
    }

    /** `getCompressionCount` as written: `meta['compression-count'] ?? 0`
        returned from a method declared `: int` under strict types. A present
        header is a string, so PHP raises a TypeError (Err) instead of
        returning it. */
    function CompressionCountAsWritten(): (r: Result<int, string>)
      ensures "compression-count" !in meta ==> r == Ok(0)
      ensures "compression-count" in meta ==> r.Err?
    {
      if "compression-count" in meta then Err("TypeError: return value must be of type int, string returned")
      else Ok(0)
    }

    /** `getCompressionCount` as intended: the count as an int, 0 when absent. */
    function CompressionCount(): (n: int)
      ensures "compression-count" !in meta ==> n == 0
      ensures "compression-count" in meta ==> n == IntVal(meta["compression-count"])
      ensures forall v {:trigger Show(v)} :: "compression-count" in meta && meta["compression-count"] == Show(v) ==> n == v
    {
      IntHeader("compression-count")
    }
  }

  /** `toBuffer` of a constructed source is the constructor's data. */
  lemma BufferIsConstructorData(headers: Headers, data: string)
    requires EveryHeaderHasValue(headers)
    ensures NewSource(headers, data).value.ToBuffer() == data
  {
  }

  /** `getLocation` of a constructed source is the first `location` header
      value, and null exactly when the response had no `location` header. */
  lemma LocationFromHeaders(headers: Headers, data: string)
    requires EveryHeaderHasValue(headers)
    ensures var s := NewSource(headers, data).value;
            (s.Location().None? <==> "location" !in headers) &&
            ("location" in headers ==> s.Location() == Some(headers["location"][0]))
  {
  }

  /** A canonical decimal header value survives `intval`: printing the parsed
      number gives the header text back. */
  lemma CanonicalHeaderRoundTrip(s: Source, key: string)
    requires key in s.meta && Canonical(s.meta[key])
    ensures Show(s.IntHeader(key)) == s.meta[key]
  {
    ShowIntValCanonical(s.meta[key]);
  }

  lemma PrintedNumbers()
    ensures Show(1234) == "1234" && Show(10) == "10" && Show(20) == "20" && Show(7) == "7"
  {
  }

  /** The headers of a typical shrink response that returns only a location. */
  const TypicalShrinkHeaders: Headers :=
    map["content-length" := ["1234"], "content-type" := ["image/png"],
        "image-width" := ["10"], "image-height" := ["20"],
        "location" := ["https://api/x"]]

  const TypicalShrinkMeta: map<string, string> :=
    map["content-length" := "1234", "content-type" := "image/png",
        "image-width" := "10", "image-height" := "20",
        "location" := "https://api/x"]

  lemma TypicalShrinkHeadersReduce()
    ensures NewSource(TypicalShrinkHeaders, "") == Some(Source(TypicalShrinkMeta, ""))
  {
    assert TypicalShrinkHeaders == SingleValued(TypicalShrinkMeta);
    NewSourceOfSingleValued(TypicalShrinkMeta, "");
  }

  /** A typical shrink response read through the accessors: the header values
      come out as numbers, and the absent compression count reads as 0. */
  lemma TypicalShrinkResponse()
    ensures var r := NewSource(TypicalShrinkHeaders, "");
            r.Some? && r.value.Size() == 1234 && r.value.MediaType() == Some("image/png") &&
            r.value.Width() == 10 && r.value.Height() == 20 &&
            r.value.Location() == Some("https://api/x") && r.value.CompressionCount() == 0
  {
    TypicalShrinkHeadersReduce();
    PrintedNumbers();
  }

  /** Header values that are not printed integers are read as `intval` reads
      them: " 12" and "12abc" give 12, "abc" gives 0. */
  lemma LenientNumericHeaders()
    ensures Source(map["content-length" := " 12"], "").Size() == 12
    ensures Source(map["image-width" := "12abc"], "").Width() == 12
    ensures Source(map["image-height" := "abc"], "").Height() == 0
  {
    IntValLenient();
  }

  /** The source's getCompressionCount fails on every response that carries
      the header, e.g. "7", where the intended accessor reads 7. */
  lemma CompressionCountCounterexample()
    ensures var s := Source(map["compression-count" := "7"], "");
            s.CompressionCountAsWritten().Err? && s.CompressionCount() == 7
  {
    PrintedNumbers();
  }
}
