/**
 * handleRequest of routes.js carried out: the decision of module Routes, taken on the current user
 * collection, followed by the response helper or the controller call it names.
 */
module Server {
  import opened Wrappers
  import opened SchemaTypes
  import opened UserModel
  import opened Requests
  import opened ResponseUtils
  import opened Routes
  import UsersController
  import ProductsController
  import OrdersController
  import ProductModel
  import OrderModel

  /**
   * What a controller call of the decision `a` answers and stores, as the controller's own
   * specification states it, for collections going from `users`, `products` and `orders` to
   * `users'`, `products'` and `orders'`. Any other decision is terminal or serves a public file and calls no controller.
   */
  ghost predicate ControllerOutcome(a: Action, body: Body, newId: ObjectId,
                                    users: seq<User>, users': seq<User>, accepts: (string, string, string) -> bool,
                                    products: seq<ProductModel.Product>, products': seq<ProductModel.Product>,
                                    uri: string -> bool,
                                    orders: seq<OrderModel.Order>, orders': seq<OrderModel.Order>, r: Response)
  {
    match a
    case GetAllUsers => UsersController.GetAllUsersSpec(users, r)
    case ViewUser(id) => UsersController.ViewUserSpec(users, id, r)
    case UpdateUser(id, caller) => UsersController.UpdateUserSpec(users, users', id, caller, body, r)
    case DeleteUser(id, caller) => UsersController.DeleteUserSpec(users, users', id, caller, r)
    case RegisterUser => UsersController.RegisterUserSpec(users, users', body, newId, accepts, r)
    case GetAllProducts => ProductsController.GetAllProductsSpec(products, r)
    case ViewProduct(id) => ProductsController.ViewProductSpec(products, id, r)
    case UpdateProduct(id) => ProductsController.UpdateProductSpec(products, products', id, body, uri, r)
    case DeleteProduct(id) => ProductsController.DeleteProductSpec(products, products', id, r)
    case AddProduct => ProductsController.AddProductSpec(products, products', body, newId, uri, r)
    case GetAllOrders(caller) => OrdersController.GetAllOrdersSpec(orders, caller, r)
    case ViewOrder(id, caller) => OrdersController.ViewOrderSpec(orders, id, caller, r)
    case AddOrder(caller) => OrdersController.AddOrderSpec(orders, orders', body, caller, newId, r)
    case _ => Terminal(a) || a.ServeStatic?
  }

  class App {
    const userStore: UsersController.UserStore
    const productStore: ProductsController.ProductStore
    const orderStore: OrdersController.OrderStore
    /** The user document's password check. */
    const checkPassword: (User, string) -> bool
    /** renderPublic of utils/render.js, which reads a file from public/. */
    const renderPublic: string -> Response

    ghost predicate Valid()
      reads this, userStore, productStore, orderStore
    {
      userStore.Valid() && productStore.Valid() && orderStore.Valid()
    }

    constructor (userStore: UsersController.UserStore, productStore: ProductsController.ProductStore,
                 orderStore: OrdersController.OrderStore, checkPassword: (User, string) -> bool,
                 renderPublic: string -> Response)
      requires userStore.Valid() && productStore.Valid() && orderStore.Valid()
      ensures Valid()
      ensures this.userStore == userStore && this.productStore == productStore && this.orderStore == orderStore
      ensures this.checkPassword == checkPassword && this.renderPublic == renderPublic
    {
      this.userStore := userStore;
      this.productStore := productStore;
      this.orderStore := orderStore;
      this.checkPassword := checkPassword;
      this.renderPublic := renderPublic;
    }

    /**
     * Handle one request whose parsed JSON body is `body`; `newId` is the id the store assigns
     * to a document created by this request. A response helper answers a terminal decision, a
     * controller call gives the response and the new collection its specification states, and
     * each collection changes only through the controller calls that write to it.
     */
    method HandleRequest(req: Request, body: Body, newId: ObjectId) returns (r: Response)
      requires Valid()
      requires forall u :: u in userStore.users ==> u.id != newId
      requires forall p :: p in productStore.products ==> p.id != newId
      requires forall o :: o in orderStore.orders ==> o.id != newId
      modifies userStore, productStore, orderStore
      ensures Valid()
      ensures var a := RouteRequest(req, old(userStore.users), checkPassword);
              && (Terminal(a) ==> r == ResponseOf(a))
              && (a.ServeStatic? ==> r == renderPublic(a.fileName))
              && (!(a.UpdateUser? || a.DeleteUser? || a.RegisterUser?) ==> userStore.users == old(userStore.users))
              && (!(a.UpdateProduct? || a.DeleteProduct? || a.AddProduct?) ==>
                    productStore.products == old(productStore.products))
              && (!a.AddOrder? ==> orderStore.orders == old(orderStore.orders))
      ensures ControllerOutcome(RouteRequest(req, old(userStore.users), checkPassword), body, newId,
                                old(userStore.users), userStore.users, userStore.accepts,
                                old(productStore.products), productStore.products, productStore.uri,
                                old(orderStore.orders), orderStore.orders, r)
    {
      var a := RouteRequest(req, userStore.users, checkPassword);
      match a
      case ServeStatic(fileName) => r := renderPublic(fileName);
      case AnswerOptions(_) => r := ResponseOf(a);
      case RejectUnauthenticated => r := ResponseOf(a);
      case RejectForbidden => r := ResponseOf(a);
      case RejectNotFound => r := ResponseOf(a);
      case RejectMethodNotAllowed => r := ResponseOf(a);
      case RejectNotAcceptable => r := ResponseOf(a);
      case RejectContentType => r := ResponseOf(a);
      case ViewUser(id) => r := userStore.ViewUser(id);
      case UpdateUser(id, caller) => r := userStore.UpdateUser(id, caller, body);
      case DeleteUser(id, caller) => r := userStore.DeleteUser(id, caller);
      case ViewProduct(id) => r := productStore.ViewProduct(id);
      case UpdateProduct(id) => r := productStore.UpdateProduct(id, body);
      case DeleteProduct(id) => r := productStore.DeleteProduct(id);
      case ViewOrder(id, caller) => r := orderStore.ViewOrder(id, caller);
      case RegisterUser => r := userStore.RegisterUser(body, newId);
      case AddProduct => r := productStore.AddProduct(body, newId);
      case AddOrder(caller) => r := orderStore.AddOrder(body, caller, newId);
      case GetAllUsers => r := userStore.GetAllUsers();
      case GetAllProducts => r := productStore.GetAllProducts();
      case GetAllOrders(caller) => r := orderStore.GetAllOrders(caller);
    }
  }
}
