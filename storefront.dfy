/**
 * The commerce gateway (src/services/shopify.ts): a client object holding the
 * store domain, the storefront access token and the API version, whose
 * operations send one GraphQL request each and classify the response into a
 * returned value or a thrown error.
 *
 * The network is a parameter: `net` maps the request the client would POST to
 * the response the store sends back. A response carries `ok`, the status line,
 * the raw text (read only on failure) and the parsed body (read only on
 * success). A body's top-level `errors` array, when present, is carried as the
 * text `JSON.stringify` gives for it.
 */
module Storefront {
  import opened Wrappers
  import opened Text
  import Js

  const ApiVersion: string := "2024-10"
  const StoreDomain: string := "sugrae.myshopify.com"
  const CreateAccountFallback: string := "Failed to create account"
  const LoginFallback: string := "Invalid email or password"
  /** The message of the `TypeError` raised when an unchecked response field is missing. */
  const MissingFieldMessage: string := "Cannot read properties of undefined"

  datatype Request<V> = Request(url: string, storefrontToken: string, variables: V)

  datatype HttpResponse<B> = HttpResponse(ok: bool, status: int, statusText: string, text: string, body: B)

  // ---------------------------------------------------------------------------
  // response bodies

  datatype UserErrorNode = UserErrorNode(message: string)

  datatype CreatedCustomer = CreatedCustomer(id: string, email: string, firstName: Js.Value, lastName: Js.Value)
  datatype CreatePayload = CreatePayload(customer: Option<CreatedCustomer>, customerUserErrors: Option<seq<UserErrorNode>>)
  datatype CreateData = CreateData(customerCreate: Option<CreatePayload>)
  datatype CreateBody = CreateBody(errors: Option<string>, data: Option<CreateData>)

  datatype AccessToken = AccessToken(accessToken: string, expiresAt: string)
  datatype TokenPayload = TokenPayload(customerAccessToken: Option<AccessToken>, customerUserErrors: Option<seq<UserErrorNode>>)
  datatype TokenData = TokenData(customerAccessTokenCreate: Option<TokenPayload>)
  datatype TokenBody = TokenBody(errors: Option<string>, data: Option<TokenData>)

  datatype Profile = Profile(id: string, email: string, firstName: Js.Value, lastName: Js.Value, displayName: Js.Value)
  datatype ProfileData = ProfileData(customer: Option<Profile>)
  datatype ProfileBody = ProfileBody(errors: Option<string>, data: Option<ProfileData>)

  /** A catalog entry; `variants` lists the variant nodes in edge order, `price` is the parsed amount. */
  datatype VariantNode = VariantNode(id: string, price: real)
  datatype ShopifyProduct = ShopifyProduct(id: string, title: string, description: string, handle: string, variants: seq<VariantNode>)
  datatype ProductEdge = ProductEdge(node: ShopifyProduct)
  datatype ProductConnection = ProductConnection(edges: Option<seq<ProductEdge>>)
  datatype ProductsData = ProductsData(products: Option<ProductConnection>)
  datatype ProductsBody = ProductsBody(errors: Option<string>, data: Option<ProductsData>)

  // ---------------------------------------------------------------------------
  // request variables

  /** The `input` of `customerCreate`. */
  datatype CustomerCreateInput = CustomerCreateInput(
    email: string, password: string, firstName: Js.Value, lastName: Js.Value, acceptsMarketing: Js.Value)

  datatype LoginInput = LoginInput(email: string, password: string)

  datatype ProductsQuery = ProductsQuery(first: int, country: Option<string>)

  /** The value `customerLogin` resolves with: the profile spread out, plus the access token. */
  datatype LoginResult = LoginResult(profile: Option<Profile>, accessToken: string)

  // ---------------------------------------------------------------------------
  // classification

  function HttpErrorMessage<B>(resp: HttpResponse<B>): string
  {
    "Shopify API error: " + IntToString(resp.status) + " " + resp.statusText + " - " + resp.text
  }

  function GraphQLErrorMessage(errorsJson: string): string
  {
    "GraphQL errors: " + errorsJson
  }

  /** `query`: a non-OK status throws with the status in the message, an OK one yields the body. */
  function Query<B>(resp: HttpResponse<B>): (r: Result<B, string>)
    ensures r.Success? <==> resp.ok
    ensures r.Success? ==> r.value == resp.body
    ensures r.Failure? ==> StartsWith(r.error, "Shopify API error: " + IntToString(resp.status) + " ")
  {
    if resp.ok then Success(resp.body)
    else
      var m := HttpErrorMessage(resp);
      assert m == ("Shopify API error: " + IntToString(resp.status) + " ") + (resp.statusText + " - " + resp.text);
      Failure(m)
  }

  /** The first entry of a `customerUserErrors` list when the list is present and non-empty. */
  function FirstUserError(errs: Option<seq<UserErrorNode>>): (r: Option<UserErrorNode>)
    ensures r.Some? <==> errs.Some? && |errs.value| > 0
    ensures r.Some? ==> r.value == errs.value[0]
  {
    if errs.Some? && |errs.value| > 0 then Some(errs.value[0]) else None
  }

  /** `error.message || fallback`. */
  function UserErrorMessage(e: UserErrorNode, fallback: string): (m: string)
    ensures e.message != "" ==> m == e.message
    ensures e.message == "" ==> m == fallback
  {
    if e.message != "" then e.message else fallback
  }

  /** The `customerCreate` input: missing names become `''`, a falsy marketing flag becomes `false`. */
  function AccountInput(email: string, password: string, firstName: Js.Value, lastName: Js.Value,
                        acceptsEmailMarketing: Js.Value): (input: CustomerCreateInput)
    ensures input.email == email && input.password == password
    ensures input.firstName == (if Js.Truthy(firstName) then firstName else Js.Str(""))
    ensures input.lastName == (if Js.Truthy(lastName) then lastName else Js.Str(""))
    ensures input.acceptsMarketing == (if Js.Truthy(acceptsEmailMarketing) then acceptsEmailMarketing else Js.Bool(false))
  {
    CustomerCreateInput(email, password, Js.Or(firstName, Js.Str("")), Js.Or(lastName, Js.Str("")),
                        Js.Or(acceptsEmailMarketing, Js.Bool(false)))
  }

  /** A boolean or omitted marketing argument reaches the store as a boolean with the same truth value. */
  lemma BooleanMarketingStaysBoolean(email: string, password: string, firstName: Js.Value, lastName: Js.Value, arg: Js.Value)
    requires arg.Bool? || arg.Undefined?
    ensures AccountInput(email, password, firstName, lastName, arg).acceptsMarketing == Js.Bool(Js.Truthy(arg))
  {
  }

  /** Classifies a `customerCreate` response: top-level errors, then the first user error, then the customer. */
  function ClassifyCreate(resp: HttpResponse<CreateBody>): (r: Result<Option<CreatedCustomer>, string>)
    ensures !resp.ok ==> r == Failure(HttpErrorMessage(resp))
    ensures resp.ok && resp.body.errors.Some? ==> r == Failure(GraphQLErrorMessage(resp.body.errors.value))
    ensures resp.ok && resp.body.errors.None? && CreateUserError(resp.body).Some? ==>
              r == Failure(UserErrorMessage(CreateUserError(resp.body).value, CreateAccountFallback))
    ensures r.Success? ==>
              && resp.ok && resp.body.errors.None? && CreateUserError(resp.body).None?
              && resp.body.data.Some? && resp.body.data.value.customerCreate.Some?
              && r.value == resp.body.data.value.customerCreate.value.customer
    ensures resp.ok && resp.body.errors.None? && CreateUserError(resp.body).None? ==>
              if resp.body.data.Some? && resp.body.data.value.customerCreate.Some?
              then r == Success(resp.body.data.value.customerCreate.value.customer)
              else r == Failure(MissingFieldMessage)
  {
    match Query(resp)
    case Failure(m) => Failure(m)
    case Success(body) =>
      if body.errors.Some? then Failure(GraphQLErrorMessage(body.errors.value))
      else match CreateUserError(body)
        case Some(e) => Failure(UserErrorMessage(e, CreateAccountFallback))
        case None =>
          if body.data.None? || body.data.value.customerCreate.None? then Failure(MissingFieldMessage)
          else Success(body.data.value.customerCreate.value.customer)
  }

  /** `response.data?.customerCreate?.customerUserErrors?.[0]` when the list is non-empty. */
  function CreateUserError(body: CreateBody): Option<UserErrorNode>
  {
    if body.data.Some? && body.data.value.customerCreate.Some?
    then FirstUserError(body.data.value.customerCreate.value.customerUserErrors)
    else None
  }

  /** `response.data?.customerAccessTokenCreate?.customerUserErrors?.[0]` when the list is non-empty. */
  function TokenUserError(body: TokenBody): Option<UserErrorNode>
  {
    if body.data.Some? && body.data.value.customerAccessTokenCreate.Some?
    then FirstUserError(body.data.value.customerAccessTokenCreate.value.customerUserErrors)
    else None
  }

  /** Classifies a `customerAccessTokenCreate` response into the access token or an error. */
  function ClassifyToken(resp: HttpResponse<TokenBody>): (r: Result<string, string>)
    ensures !resp.ok ==> r == Failure(HttpErrorMessage(resp))
    ensures resp.ok && resp.body.errors.Some? ==> r == Failure(GraphQLErrorMessage(resp.body.errors.value))
    ensures resp.ok && resp.body.errors.None? && TokenUserError(resp.body).Some? ==>
              r == Failure(UserErrorMessage(TokenUserError(resp.body).value, LoginFallback))
    ensures r.Success? ==>
              && resp.ok && resp.body.errors.None? && TokenUserError(resp.body).None?
              && resp.body.data.Some? && resp.body.data.value.customerAccessTokenCreate.Some?
              && resp.body.data.value.customerAccessTokenCreate.value.customerAccessToken.Some?
              && r.value == resp.body.data.value.customerAccessTokenCreate.value.customerAccessToken.value.accessToken
    ensures resp.ok && resp.body.errors.None? && TokenUserError(resp.body).None? ==>
              if && resp.body.data.Some? && resp.body.data.value.customerAccessTokenCreate.Some?
                 && resp.body.data.value.customerAccessTokenCreate.value.customerAccessToken.Some?
              then r == Success(resp.body.data.value.customerAccessTokenCreate.value.customerAccessToken.value.accessToken)
              else r == Failure(MissingFieldMessage)
  {
    match Query(resp)
    case Failure(m) => Failure(m)
    case Success(body) =>
      if body.errors.Some? then Failure(GraphQLErrorMessage(body.errors.value))
      else match TokenUserError(body)
        case Some(e) => Failure(UserErrorMessage(e, LoginFallback))
        case None =>
          if body.data.None? || body.data.value.customerAccessTokenCreate.None?
             || body.data.value.customerAccessTokenCreate.value.customerAccessToken.None?
          then Failure(MissingFieldMessage)
          else Success(body.data.value.customerAccessTokenCreate.value.customerAccessToken.value.accessToken)
  }

  /** Classifies a `customer` query response into the profile (possibly `null`) or an error. */
  function ClassifyProfile(resp: HttpResponse<ProfileBody>): (r: Result<Option<Profile>, string>)
    ensures !resp.ok ==> r == Failure(HttpErrorMessage(resp))
    ensures resp.ok && resp.body.errors.Some? ==> r == Failure(GraphQLErrorMessage(resp.body.errors.value))
    ensures r.Success? ==> resp.ok && resp.body.errors.None? && resp.body.data.Some?
                           && r.value == resp.body.data.value.customer
    ensures resp.ok && resp.body.errors.None? ==>
              if resp.body.data.Some? then r == Success(resp.body.data.value.customer)
              else r == Failure(MissingFieldMessage)
  {
    match Query(resp)
    case Failure(m) => Failure(m)
    case Success(body) =>
      if body.errors.Some? then Failure(GraphQLErrorMessage(body.errors.value))
      else if body.data.None? then Failure(MissingFieldMessage)
      else Success(body.data.value.customer)
  }

  /** The nodes of the product edges, in edge order. */
  function EdgeNodes(edges: seq<ProductEdge>): (nodes: seq<ShopifyProduct>)
    ensures |nodes| == |edges|
    ensures forall i :: 0 <= i < |edges| ==> nodes[i] == edges[i].node
  {
    if edges == [] then [] else [edges[0].node] + EdgeNodes(edges[1..])
  }

  /** Classifies a `products` response: errors throw, missing edges give `[]`, otherwise the nodes. */
  function ClassifyProducts(resp: HttpResponse<ProductsBody>): (r: Result<seq<ShopifyProduct>, string>)
    ensures !resp.ok ==> r == Failure(HttpErrorMessage(resp))
    ensures resp.ok && resp.body.errors.Some? ==> r == Failure(GraphQLErrorMessage(resp.body.errors.value))
    ensures resp.ok && resp.body.errors.None? ==> r.Success?
    ensures r.Success? && ProductEdges(resp.body).None? ==> r.value == []
    ensures r.Success? && ProductEdges(resp.body).Some? ==> r.value == EdgeNodes(ProductEdges(resp.body).value)
  {
    match Query(resp)
    case Failure(m) => Failure(m)
    case Success(body) =>
      if body.errors.Some? then Failure(GraphQLErrorMessage(body.errors.value))
      else match ProductEdges(body)
        case None => Success([])
        case Some(edges) => Success(EdgeNodes(edges))
  }

  /** `response.data?.products?.edges`. */
  function ProductEdges(body: ProductsBody): Option<seq<ProductEdge>>
  {
    if body.data.Some? && body.data.value.products.Some? then body.data.value.products.value.edges else None
  }

  // ---------------------------------------------------------------------------
  // the client

  class StorefrontApi {
    const domain: string
    const accessToken: string
    const apiVersion: string

    constructor (domain: string, accessToken: string)
      ensures this.domain == domain && this.accessToken == accessToken
      ensures apiVersion == ApiVersion
    {
      this.domain := domain;
      this.accessToken := accessToken;
      this.apiVersion := ApiVersion;
    }

    /** The GraphQL endpoint every operation posts to. */
    function Endpoint(): (url: string)
    {
      "https://" + domain + "/api/" + apiVersion + "/graphql.json"
    }

    /** The request for `variables`: posted to the endpoint with the storefront token. */
    function RequestFor<V>(variables: V): (req: Request<V>)
      ensures req.url == Endpoint() && req.storefrontToken == accessToken && req.variables == variables
    {
      Request(Endpoint(), accessToken, variables)
    }

    /** `createCustomerAccount(email, password, firstName, lastName, acceptsEmailMarketing)`. */
    function CreateCustomerAccount(email: string, password: string, firstName: Js.Value, lastName: Js.Value,
                                   acceptsEmailMarketing: Js.Value,
                                   net: Request<CustomerCreateInput> -> HttpResponse<CreateBody>)
      : (r: Result<Option<CreatedCustomer>, string>)
      ensures r == ClassifyCreate(net(RequestFor(AccountInput(email, password, firstName, lastName, acceptsEmailMarketing))))
    {
      ClassifyCreate(net(RequestFor(AccountInput(email, password, firstName, lastName, acceptsEmailMarketing))))
    }

    /** `getCustomerDetails(accessToken)`. */
    function CustomerDetails(token: string, net: Request<string> -> HttpResponse<ProfileBody>)
      : (r: Result<Option<Profile>, string>)
    {
      ClassifyProfile(net(RequestFor(token)))
    }

    /**
     * `customerLogin(email, password)`: obtain a token, then query the profile
     * with that token; resolves with the profile plus the token.
     */
    function CustomerLogin(email: string, password: string,
                           tokenNet: Request<LoginInput> -> HttpResponse<TokenBody>,
                           profileNet: Request<string> -> HttpResponse<ProfileBody>)
      : (r: Result<LoginResult, string>)
      ensures ClassifyToken(tokenNet(RequestFor(LoginInput(email, password)))).Failure? ==>
                r == Failure(ClassifyToken(tokenNet(RequestFor(LoginInput(email, password)))).error)
      ensures r.Success? ==>
                var token := ClassifyToken(tokenNet(RequestFor(LoginInput(email, password))));
                && token.Success?
                && r.value.accessToken == token.value
                && Success(r.value.profile) == CustomerDetails(token.value, profileNet)
      ensures var token := ClassifyToken(tokenNet(RequestFor(LoginInput(email, password))));
              token.Success? ==>
                match CustomerDetails(token.value, profileNet)
                case Failure(m) => r == Failure(m)
                case Success(profile) => r == Success(LoginResult(profile, token.value))
    {
      match ClassifyToken(tokenNet(RequestFor(LoginInput(email, password))))
      case Failure(m) => Failure(m)
      case Success(token) =>
        match CustomerDetails(token, profileNet)
        case Failure(m) => Failure(m)
        case Success(profile) => Success(LoginResult(profile, token))
    }

    /** `fetchProducts(first, countryCode)`. */
    function FetchProducts(first: int, countryCode: Option<string>,
                           net: Request<ProductsQuery> -> HttpResponse<ProductsBody>)
      : (r: Result<seq<ShopifyProduct>, string>)
    {
      ClassifyProducts(net(RequestFor(ProductsQuery(first, countryCode))))
    }

    /** The profile query is never consulted when obtaining the token fails. */
    lemma ProfileQueryOnlyAfterToken(email: string, password: string,
                                     tokenNet: Request<LoginInput> -> HttpResponse<TokenBody>,
                                     profileNet: Request<string> -> HttpResponse<ProfileBody>,
                                     otherProfileNet: Request<string> -> HttpResponse<ProfileBody>)
      requires ClassifyToken(tokenNet(RequestFor(LoginInput(email, password)))).Failure?
      ensures CustomerLogin(email, password, tokenNet, profileNet) == CustomerLogin(email, password, tokenNet, otherProfileNet)
    {
    }
  }

  /** The endpoint of a client is `https://<domain>/api/2024-10/graphql.json`. */
  lemma EndpointShape(api: StorefrontApi)
    requires api.apiVersion == ApiVersion
    ensures api.Endpoint() == "https://" + api.domain + "/api/2024-10/graphql.json"
  {
  }

  /** Top-level `errors` are reported even when the payload also carries user errors. */
  lemma TopLevelErrorsComeFirst(resp: HttpResponse<CreateBody>)
    requires resp.ok && resp.body.errors.Some? && CreateUserError(resp.body).Some?
    ensures ClassifyCreate(resp) == Failure(GraphQLErrorMessage(resp.body.errors.value))
  {
  }

  /** Missing edges and an empty edge list both yield no products; neither is an error. */
  lemma MissingEdgesGiveNoProducts(resp: HttpResponse<ProductsBody>)
    requires resp.ok && resp.body.errors.None?
    requires ProductEdges(resp.body).None? || ProductEdges(resp.body) == Some([])
    ensures ClassifyProducts(resp) == Success([])
  {
  }
}
