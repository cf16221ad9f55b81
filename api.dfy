/**
 * The Microsoft identity platform and Graph endpoints of each account type
 * (`ApiType` in `src/backend/onedrive/mod.rs`): the authorization and
 * token endpoints of the OAuth 2.0 flow and the Graph API base URL.
 */
module Api {

  datatype ApiType = Common | Consumers | Organizations | ChinaApi

  const GLOBAL_GRAPH := "https://graph.microsoft.com/v1.0"

  /** `ApiType::get_auth_url`. */
  function AuthUrl(api: ApiType): string {
    match api
    case Common => "https://login.microsoftonline.com/common/oauth2/v2.0/authorize"
    case Consumers => "https://login.microsoftonline.com/consumers/oauth2/v2.0/authorize"
    case Organizations => "https://login.microsoftonline.com/organizations/oauth2/v2.0/authorize"
    case ChinaApi => "https://login.chinacloudapi.cn/common/oauth2/v2.0/authorize"
  }

  /** `ApiType::get_token_url`. */
  function TokenUrl(api: ApiType): string {
    match api
    case Common => "https://login.microsoftonline.com/common/oauth2/v2.0/token"
    case Consumers => "https://login.microsoftonline.com/consumers/oauth2/v2.0/token"
    case Organizations => "https://login.microsoftonline.com/organizations/oauth2/v2.0/token"
    case ChinaApi => "https://login.chinacloudapi.cn/common/oauth2/v2.0/token"
  }

  /** `ApiType::get_graph_url`. */
  function GraphUrl(api: ApiType): string {
    match api
    case Common => GLOBAL_GRAPH
    case Consumers => GLOBAL_GRAPH
    case Organizations => GLOBAL_GRAPH
    case ChinaApi => "https://microsoftgraph.chinacloudapi.cn/v1.0"
  }

  /**
   * The login URL of an account type, up to and including the
   * `/oauth2/v2.0/` that both endpoints share.
   */
  function LoginBase(api: ApiType): string {
    match api
    case Common => "https://login.microsoftonline.com/common/oauth2/v2.0/"
    case Consumers => "https://login.microsoftonline.com/consumers/oauth2/v2.0/"
    case Organizations => "https://login.microsoftonline.com/organizations/oauth2/v2.0/"
    case ChinaApi => "https://login.chinacloudapi.cn/common/oauth2/v2.0/"
  }

  /**
   * For every account type the token endpoint is the authorization
   * endpoint with its last segment `authorize` replaced by `token`: both
   * are the account type's login base followed by that segment.
   */
  lemma TokenUrlReplacesAuthorize(api: ApiType)
    ensures AuthUrl(api) == LoginBase(api) + "authorize"
    ensures TokenUrl(api) == LoginBase(api) + "token"
  {
    match api
    case Common => CommonEndpoints();
    case Consumers => ConsumersEndpoints();
    case Organizations => OrganizationsEndpoints();
    case ChinaApi => ChinaEndpoints();
  }

  /** Each account type's two endpoints, checked one type at a time. */
  lemma CommonEndpoints()
    ensures AuthUrl(Common) == LoginBase(Common) + "authorize"
    ensures TokenUrl(Common) == LoginBase(Common) + "token"
  {
  }

  lemma ConsumersEndpoints()
    ensures AuthUrl(Consumers) == LoginBase(Consumers) + "authorize"
    ensures TokenUrl(Consumers) == LoginBase(Consumers) + "token"
  {
  }

  lemma OrganizationsEndpoints()
    ensures AuthUrl(Organizations) == LoginBase(Organizations) + "authorize"
    ensures TokenUrl(Organizations) == LoginBase(Organizations) + "token"
  {
  }

  lemma ChinaEndpoints()
    ensures AuthUrl(ChinaApi) == LoginBase(ChinaApi) + "authorize"
    ensures TokenUrl(ChinaApi) == LoginBase(ChinaApi) + "token"
  {
  }

  /** The global Graph service serves every account type except the one operated in China. */
  lemma GraphUrlGlobalUnlessChina(api: ApiType)
    ensures GraphUrl(api) == GLOBAL_GRAPH <==> api != ChinaApi
  {
    if api == ChinaApi {
      assert GraphUrl(api)[8] != GLOBAL_GRAPH[8];
    }
  }
}
