/** The route dispatch: the page rendered for the current path. */
module App {
  import opened Common

  datatype Page = Dashboard | Login | Register | Tables | ShopCart | Payment | Kitchen | Menu | Team | Expense

  const TablesPrefix := "/tables/"

  /** The position of the first '/' in `s`, or |s| when there is none. */
  function SlashIndex(s: string): (k: nat)
    ensures k <= |s| && '/' !in s[..k]
    ensures forall j :: 0 <= j < k ==> s[j] != '/'
    ensures k < |s| ==> s[k] == '/'
  {
    var k := FindIndex(s, (c: char) => c == '/');
    assert forall j :: 0 <= j < k ==> s[..k][j] == s[j];
    k
  }

  /** /^\/tables\/([^/]+)\/([^/]+)$/: the path is "/tables/", a non-empty
      segment, '/', and another non-empty segment, neither holding a '/'. */
  predicate PaymentMatch(path: string) {
    StartsWith(path, TablesPrefix) &&
    var rest := path[|TablesPrefix|..];
    var k := SlashIndex(rest);
    0 < k < |rest| - 1 && '/' !in rest[k + 1..]
  }

  /** The path /tables/{table}/{cart}. */
  ghost predicate IsPaymentPath(path: string) {
    exists table: string, cart: string ::
      table != [] && cart != [] && '/' !in table && '/' !in cart &&
      path == TablesPrefix + table + "/" + cart
  }

  /** The match test accepts exactly the two-segment paths. */
  lemma PaymentMatchIsTwoSegments(path: string)
    ensures PaymentMatch(path) <==> IsPaymentPath(path)
  {
    if PaymentMatch(path) {
      var rest := path[|TablesPrefix|..];
      var k := SlashIndex(rest);
      var table, cart := rest[..k], rest[k + 1..];
      assert rest == table + "/" + cart;
      assert path == TablesPrefix + rest;
      assert path == TablesPrefix + table + "/" + cart;
    }
    if IsPaymentPath(path) {
      var table: string, cart: string :| table != [] && cart != [] && '/' !in table && '/' !in cart &&
        path == TablesPrefix + table + "/" + cart;
      SegmentsSplit(path, table, cart);
    }
  }

  lemma SegmentsSplit(path: string, table: string, cart: string)
    requires table != [] && cart != [] && '/' !in table && '/' !in cart
    requires path == TablesPrefix + table + "/" + cart
    ensures PaymentMatch(path)
  {
    assert path[..|TablesPrefix|] == TablesPrefix;
    var rest := path[|TablesPrefix|..];
    assert rest == table + "/" + cart;
    var k := SlashIndex(rest);
    forall j | 0 <= j < |table| ensures rest[j] != '/' {
      assert rest[j] == table[j];
    }
    assert rest[|table|] == '/';
    assert k == |table|;
    assert rest[k + 1..] == cart;
  }

  /** renderPage: the payment pattern first, then any other path under
      /tables/ is a cart, then the exact paths, then the dashboard. */
  function RenderPage(path: string): (p: Page)
    ensures p == Payment <==> IsPaymentPath(path)
    ensures p == ShopCart <==> StartsWith(path, TablesPrefix) && !IsPaymentPath(path)
    ensures !StartsWith(path, TablesPrefix) ==>
      p == (match path
            case "/login" => Login
            case "/register" => Register
            case "/tables" => Tables
            case "/kitchen" => Kitchen
            case "/menu" => Menu
            case "/team" => Team
            case "/expense" => Expense
            case _ => Dashboard)
  {
    PaymentMatchIsTwoSegments(path);
    if PaymentMatch(path) then Payment
    else if StartsWith(path, TablesPrefix) then ShopCart
    else
      match path
      case "/" => Dashboard
      case "/login" => Login
      case "/register" => Register
      case "/tables" => Tables
      case "/kitchen" => Kitchen
      case "/menu" => Menu
      case "/team" => Team
      case "/expense" => Expense
      case _ => Dashboard
  }

  /** Each page's own path renders it, and the root and every unknown path
      outside /tables/ render the dashboard. */
  lemma ExactPaths()
    ensures RenderPage("/") == Dashboard && RenderPage("/login") == Login
    ensures RenderPage("/register") == Register && RenderPage("/tables") == Tables
    ensures RenderPage("/kitchen") == Kitchen && RenderPage("/menu") == Menu
    ensures RenderPage("/team") == Team && RenderPage("/expense") == Expense
  {
    assert !StartsWith("/", TablesPrefix);
    assert !StartsWith("/login", TablesPrefix);
    assert "/register"[..8][1] == 'r';
    assert !StartsWith("/tables", TablesPrefix);
    assert "/kitchen"[..8][1] == 'k';
    assert !StartsWith("/menu", TablesPrefix);
    assert !StartsWith("/team", TablesPrefix);
    assert "/expense"[..8][1] == 'e';
  }

  /** A cart page and its payment page: "/tables/5" is a cart and
      "/tables/5/12" is its payment, while "/tables/5/12/" is a cart again. */
  lemma TablesExamples()
    ensures RenderPage("/tables/5") == ShopCart
    ensures RenderPage("/tables/5/12") == Payment
    ensures RenderPage("/tables/5/12/") == ShopCart
  {
    assert StartsWith("/tables/5", TablesPrefix);
    assert StartsWith("/tables/5/12", TablesPrefix);
    assert StartsWith("/tables/5/12/", TablesPrefix);
    SegmentsSplit("/tables/5/12", "5", "12");
    PaymentMatchIsTwoSegments("/tables/5");
    PaymentMatchIsTwoSegments("/tables/5/12/");
    assert "/tables/5"[8..] == "5";
    assert "/tables/5/12/"[8..] == "5/12/";
    assert SlashIndex("5") == 1;
    assert SlashIndex("5/12/") == 1;
    assert "5/12/"[2..] == "12/" && "12/"[2] == '/';
  }
}
