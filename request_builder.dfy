/** The HTTP request for a chat completion (JGP.DotNetGPT/Builders/RequestBuilder.cs): which
    header carries the API key, and the shape of the POST request. */
module RequestBuilders {

  /** JGP.DotNetGPT/Clients/DeploymentType.cs: the OpenAI endpoint or an Azure deployment. */
  datatype DeploymentType = Direct | Azure

  datatype Header = Header(key: string, value: string)

  /** A string body with its encoding and media type. */
  datatype StringContent = StringContent(body: string, encoding: string, mediaType: string)

  datatype HttpRequest = HttpRequest(httpMethod: string, url: string, headers: seq<Header>, content: StringContent)

  const BearerPrefix: string := "Bearer "

  /** OpenAI takes the key as a bearer token; Azure takes it unchanged in its own header. */
  function BuildApiKeyHeader(deploymentType: DeploymentType, apiKey: string): (header: Header)
    ensures |apiKey| <= |header.value| && header.value[|header.value| - |apiKey|..] == apiKey
    ensures deploymentType == Direct <==> header.key == "Authorization"
    ensures deploymentType == Azure ==> header == Header("api-key", apiKey)
  {
    if deploymentType == Direct then Header("Authorization", BearerPrefix + apiKey)
    else Header("api-key", apiKey)
  }

  /** A POST to the chat URL whose one header is the key header and whose body is the given
      JSON as UTF-8. */
  function BuildChatRequest(chatUrl: string, apiKey: string, content: string,
                            deploymentType: DeploymentType): (request: HttpRequest)
    ensures request.httpMethod == "POST" && request.url == chatUrl
    ensures |request.headers| == 1
    ensures request.content == StringContent(content, "utf-8", "application/json")
  {
    HttpRequest("POST", chatUrl, [BuildApiKeyHeader(deploymentType, apiKey)],
                StringContent(content, "utf-8", "application/json"))
  }

  /** The key header's name depends on the deployment alone, and its value on the key alone: the
      Direct value is the bearer prefix then the key, the Azure value the key itself. */
  lemma HeaderDependsOnDeploymentAndKey(d: DeploymentType, key1: string, key2: string)
    ensures BuildApiKeyHeader(d, key1).key == BuildApiKeyHeader(d, key2).key
    ensures BuildApiKeyHeader(Direct, key1).key != BuildApiKeyHeader(Azure, key2).key
    ensures BuildApiKeyHeader(d, key1).value == BuildApiKeyHeader(d, key2).value <==> key1 == key2
    ensures BuildApiKeyHeader(Direct, key1).value == BearerPrefix + key1
    ensures BuildApiKeyHeader(Azure, key1).value == key1
    ensures BuildApiKeyHeader(Direct, key1) == Header("Authorization", BearerPrefix + key1)
    ensures BuildApiKeyHeader(Azure, key1) == Header("api-key", key1)
  {
    PrefixCancels(BearerPrefix, key1, key2);
  }

  lemma PrefixCancels(prefix: string, a: string, b: string)
    ensures prefix + a == prefix + b <==> a == b
  {
    if prefix + a == prefix + b {
      assert a == (prefix + a)[|prefix|..];
      assert b == (prefix + b)[|prefix|..];
    }
  }

  /** The request's one header is the key header, so the key is sent exactly once. */
  lemma RequestCarriesKeyHeader(chatUrl: string, apiKey: string, content: string, d: DeploymentType)
    ensures BuildChatRequest(chatUrl, apiKey, content, d).headers == [BuildApiKeyHeader(d, apiKey)]
  {
  }
}
