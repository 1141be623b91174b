/** Cloud storage targets: each produces the `store` configuration the API
    expects, as fixed keys merged with the caller's extra options. */
module Storage {
  import opened Values

  /** PHP `array_merge` on two arrays with string keys: every key of either
      array, the later array's value winning where both have the key. */
  function ArrayMerge(earlier: map<string, Json>, later: map<string, Json>): (r: map<string, Json>)
    ensures r.Keys == earlier.Keys + later.Keys
    ensures forall k :: k in later ==> r[k] == later[k]
    ensures forall k :: k in earlier && k !in later ==> r[k] == earlier[k]
  {
    earlier + later
  }

  /** Amazon S3 credentials and extra options. */
  datatype Aws = Aws(region: string, secretAccessKey: string, accessKeyId: string, option: map<string, Json>)
  {
    /** The four fixed keys, overridden key by key by `option`. */
    function Configuration(): (r: map<string, Json>)
      ensures r.Keys == {"service", "region", "aws_secret_access_key", "aws_access_key_id"} + option.Keys
      ensures forall k :: k in option ==> r[k] == option[k]
      ensures "service" !in option ==> r["service"] == JString("aws")
      ensures "region" !in option ==> r["region"] == JString(region)
      ensures "aws_secret_access_key" !in option ==> r["aws_secret_access_key"] == JString(secretAccessKey)
      ensures "aws_access_key_id" !in option ==> r["aws_access_key_id"] == JString(accessKeyId)
    {
      ArrayMerge(map["service" := JString("aws"),
                     "region" := JString(region),
                     "aws_secret_access_key" := JString(secretAccessKey),
                     "aws_access_key_id" := JString(accessKeyId)],
                 option)
    }
  }

  /** Google Cloud Storage access token and extra options. */
  datatype Gcs = Gcs(accessToken: string, option: map<string, Json>)
  {
    /** The two fixed keys, overridden key by key by `option`. */
    function Configuration(): (r: map<string, Json>)
      ensures r.Keys == {"service", "gcp_access_token"} + option.Keys
      ensures forall k :: k in option ==> r[k] == option[k]
      ensures "service" !in option ==> r["service"] == JString("gcs")
      ensures "gcp_access_token" !in option ==> r["gcp_access_token"] == JString(accessToken)
    {
      ArrayMerge(map["service" := JString("gcs"), "gcp_access_token" := JString(accessToken)], option)
    }
  }

  /** Anything that can produce a storage configuration: the two built-in
      providers. */
  datatype StorageConfig = AwsStorage(aws: Aws) | GcsStorage(gcs: Gcs)
  {
    function Configuration(): (r: map<string, Json>)
      ensures AwsStorage? ==> r == aws.Configuration()
      ensures GcsStorage? ==> r == gcs.Configuration()
      ensures "service" in r
    {
      match this
      case AwsStorage(a) => a.Configuration()
      case GcsStorage(g) => g.Configuration()
    }
  }
}
