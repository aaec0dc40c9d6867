/** The client's product store: the catalogue, the featured products, the
    product being viewed and the search results. */
module ProductSlice {
  import opened Wrappers
  import opened Values

  /** A product as the client holds it. */
  datatype ClientProduct = ClientProduct(id: string, details: Value)

  datatype ProductsState = ProductsState(
    products: seq<ClientProduct>,
    featuredProducts: seq<ClientProduct>,
    loading: bool,
    error: Option<string>,
    currentProduct: Option<ClientProduct>,
    searchResults: seq<ClientProduct>)

  const Initial := ProductsState([], [], false, None, None, [])

  /** How many products become featured when none are. */
  const FeaturedCount := 3

  datatype Thunk = FetchAllProducts | FetchProductById | SearchProducts

  datatype Action =
    | ClearCurrentProduct
    | ClearSearchResults
    | ClearError
    | SetFeaturedProducts(featured: seq<ClientProduct>)
    | Pending(thunk: Thunk)
    | Rejected(thunk: Thunk, message: string)
    | FetchAllProductsFulfilled(all: seq<ClientProduct>)
    | FetchProductByIdFulfilled(found: ClientProduct)
    | SearchProductsFulfilled(results: seq<ClientProduct>)

  /** `ps.slice(0, n)`. */
  function Take(ps: seq<ClientProduct>, n: nat): (r: seq<ClientProduct>)
    ensures |r| == if |ps| < n then |ps| else n
    ensures r == ps[..|r|]
  {
    if |ps| < n then ps else ps[..n]
  }

  /** The slice's reducer. */
  function Reduce(s: ProductsState, a: Action): ProductsState {
    match a
    case ClearCurrentProduct => s.(currentProduct := None)
    case ClearSearchResults => s.(searchResults := [])
    case ClearError => s.(error := None)
    case SetFeaturedProducts(f) => s.(featuredProducts := f)
    case Pending(_) => s.(loading := true, error := None)
    case Rejected(_, m) => s.(loading := false, error := Some(m))
    case FetchAllProductsFulfilled(ps) =>
      s.(loading := false, products := ps,
         featuredProducts := if |s.featuredProducts| == 0 then Take(ps, FeaturedCount) else s.featuredProducts)
    case FetchProductByIdFulfilled(p) => s.(loading := false, currentProduct := Some(p))
    case SearchProductsFulfilled(ps) => s.(loading := false, searchResults := ps)
  }

  /** Loading the catalogue features its first three products (all of them
      when there are fewer) only when nothing was featured, and otherwise
      leaves the featured list alone. */
  lemma FetchAllFeatures(s: ProductsState, ps: seq<ClientProduct>)
    ensures var r := Reduce(s, FetchAllProductsFulfilled(ps));
      && r.products == ps && !r.loading
      && (s.featuredProducts == [] ==>
            |r.featuredProducts| == (if |ps| < 3 then |ps| else 3)
            && forall i :: 0 <= i < |r.featuredProducts| ==> r.featuredProducts[i] == ps[i])
      && (s.featuredProducts != [] ==> r.featuredProducts == s.featuredProducts)
  {
  }

  /** Featured products chosen explicitly survive any later catalogue load,
      but an explicitly empty choice is replaced by the catalogue's first
      products. */
  lemma ChosenFeaturedSurvivesFetch(s: ProductsState, f: seq<ClientProduct>, ps: seq<ClientProduct>)
    ensures var r := Reduce(Reduce(s, SetFeaturedProducts(f)), FetchAllProductsFulfilled(ps));
      (f != [] ==> r.featuredProducts == f) && (f == [] ==> r.featuredProducts == Take(ps, FeaturedCount))
  {
  }

  /** Loading the catalogue twice features the products of the first load. */
  lemma SecondFetchKeepsFeatured(s: ProductsState, ps: seq<ClientProduct>, qs: seq<ClientProduct>)
    requires s.featuredProducts == [] && ps != []
    ensures var r := Reduce(Reduce(s, FetchAllProductsFulfilled(ps)), FetchAllProductsFulfilled(qs));
      r.products == qs && r.featuredProducts == Take(ps, FeaturedCount)
  {
  }

  /** Pending clears the error, rejection records it; neither touches the data. */
  lemma LifecycleFlags(s: ProductsState, t: Thunk, m: string)
    ensures var p := Reduce(s, Pending(t));
      p == s.(loading := true, error := None) && p.products == s.products && p.featuredProducts == s.featuredProducts
    ensures var r := Reduce(s, Rejected(t, m));
      !r.loading && r.error == Some(m) && r.products == s.products && r.currentProduct == s.currentProduct
      && r.searchResults == s.searchResults && r.featuredProducts == s.featuredProducts
  {
  }

  /** Each clearing reducer resets its own field to its initial value and
      nothing else. */
  lemma ClearersChangeOneField(s: ProductsState)
    ensures Reduce(s, ClearCurrentProduct) == s.(currentProduct := Initial.currentProduct)
    ensures Reduce(s, ClearSearchResults) == s.(searchResults := Initial.searchResults)
    ensures Reduce(s, ClearError) == s.(error := Initial.error)
  {
  }

  /** The product store of the client. */
  class ProductStore {
    var products: seq<ClientProduct>
    var featuredProducts: seq<ClientProduct>
    var loading: bool
    var error: Option<string>
    var currentProduct: Option<ClientProduct>
    var searchResults: seq<ClientProduct>

    function State(): ProductsState
      reads this
    {
      ProductsState(products, featuredProducts, loading, error, currentProduct, searchResults)
    }

    constructor ()
      ensures State() == Initial
    {
      products := [];
      featuredProducts := [];
      loading := false;
      error := None;
      currentProduct := None;
      searchResults := [];
    }

    method Dispatch(a: Action)
      modifies this
      ensures State() == Reduce(old(State()), a)
    {
      match a
      case ClearCurrentProduct =>
        currentProduct := None;
      case ClearSearchResults =>
        searchResults := [];
      case ClearError =>
        error := None;
      case SetFeaturedProducts(f) =>
        featuredProducts := f;
      case Pending(_) =>
        loading := true;
        error := None;
      case Rejected(_, m) =>
        loading := false;
        error := Some(m);
      case FetchAllProductsFulfilled(ps) =>
        loading := false;
        products := ps;
        if |featuredProducts| == 0 {
          featuredProducts := Take(ps, FeaturedCount);
        }
      case FetchProductByIdFulfilled(p) =>
        loading := false;
        currentProduct := Some(p);
      case SearchProductsFulfilled(ps) =>
        loading := false;
        searchResults := ps;
    }
  }
}
