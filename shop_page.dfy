/**
 * The free-item shop (`app/shop/page.tsx`): a fixed catalogue, and a handler
 * that reads the saved session, posts the chosen item to '/api/add-item-web'
 * with the session's token, and reports the outcome in an alert.
 */
module ShopPage {
  import opened Wrappers
  import opened Js
  import opened Browser
  import Http

  datatype Item = Item(id: int, name: string, description: string)

  /** The catalogue (the images are left out). */
  const Items: seq<Item> := [
    Item(1, "Cải trang black goku", "Cải trang thành Super Black Goku"),
    Item(2, "Trứng đệ tử", "Sử dụng vật phẩm có thể giúp người chơi sở hữu đệ tử."),
    Item(3, "Áo vải thô", "Giúp giảm sát thương"),
    Item(4, "Quần thần linh", "Giúp tăng HP"),
    Item(5, "Găng vải thô", "Giúp tăng sức đánh"),
    Item(6, "Giày vải thô", "Giúp tăng MP"),
    Item(7, "Rada", "Giúp tăng Chí Mạng")
  ]

  const LoginRequired := "Vui lòng đăng nhập để nhận vật phẩm!"
  const InvalidLogin := "Thông tin đăng nhập không hợp lệ!"
  const Received := "Nhận vật phẩm thành công! Vào game để sử dụng."
  const NotReceived := "Không thể nhận vật phẩm"

  /** The catalogue lists items 1 to 7 in order, so every id is used once. */
  lemma CatalogueIds()
    ensures |Items| == 7
    ensures forall i :: 0 <= i < |Items| ==> Items[i].id == i + 1
    ensures forall i, j :: 0 <= i < j < |Items| ==> Items[i].id != Items[j].id
  {
  }

  /** The alert after the request: success, or the error the handler throws and catches. */
  function OutcomeAlert(reply: Http.Upstream): (r: string)
    ensures reply.NetworkError? ==> r == reply.message
    ensures reply.Answered? && reply.body.NotJson? ==> r == reply.body.parseError
    ensures reply.Answered? && reply.body.Json? && Http.Ok(reply.status) ==> r == Received
    ensures reply.Answered? && reply.body.Json? && !Http.Ok(reply.status) && Nullish(reply.body.value) ==>
      r == PropertyReadError(reply.body.value, "error")
    ensures reply.Answered? && reply.body.Json? && !Http.Ok(reply.status) && !Nullish(reply.body.value) ==>
      r == (if Truthy(Get(reply.body.value, "error")) then ToJsString(Get(reply.body.value, "error")) else NotReceived)
  {
    match reply
    case NetworkError(m) => m
    case Answered(status, body) =>
      match body
      case NotJson(m) => m
      case Json(data) =>
        if Http.Ok(status) then Received
        else if Nullish(data) then PropertyReadError(data, "error")
        else ToJsString(Or(Get(data, "error"), Str(NotReceived)))
  }

  /** The session fields the handler needs: the saved user, when it can be read. */
  predicate HasCredentials(items: map<string, Value>) {
    && CurrentUserKey in items
    && !Nullish(items[CurrentUserKey])
    && Truthy(Get(items[CurrentUserKey], "auth_id"))
    && Truthy(Get(items[CurrentUserKey], "access_token"))
  }

  /** The request the handler sends for `itemId` with the saved session `u`. */
  function AddItemRequest(u: Value, itemId: int): ApiCall {
    var authId := Get(u, "auth_id");
    AddItemCall("Bearer " + ToJsString(Get(u, "access_token")), ToJsString(authId),
      Obj(map["id" := authId, "itemId" := Num(itemId)]))
  }

  class Shop {
    const storage: Storage
    var loading: bool
    var loadingItemId: Option<int>
    var effects: seq<UiEffect>

    constructor (storage: Storage)
      ensures this.storage == storage && !loading && loadingItemId == None && effects == []
    {
      this.storage := storage;
      loading, loadingItemId, effects := false, None, [];
    }

    /** `disabled={loading && loadingItemId === item.id}`. */
    function ButtonDisabled(id: int): bool
      reads this
    {
      loading && loadingItemId == Some(id)
    }

    /**
     * `handleReceiveItem`, with the awaited `fetch` and `response.json()` as
     * input.  Without a saved session, or when it lacks `auth_id` or
     * `access_token`, it alerts and sends nothing; otherwise it sends one request
     * and alerts its outcome.  The `finally` block runs on the early returns too,
     * so loading always ends cleared.
     */
    method HandleReceiveItem(itemId: int, reply: Http.Upstream)
      modifies this
      ensures !loading && loadingItemId == None
      ensures forall id :: !ButtonDisabled(id)
      ensures CurrentUserKey !in storage.items ==> effects == old(effects) + [Alert(LoginRequired)]
      ensures CurrentUserKey in storage.items && Nullish(storage.items[CurrentUserKey]) ==>
        effects == old(effects) + [Alert(PropertyReadError(storage.items[CurrentUserKey], "auth_id"))]
      ensures CurrentUserKey in storage.items && !Nullish(storage.items[CurrentUserKey]) && !HasCredentials(storage.items) ==>
        effects == old(effects) + [Alert(InvalidLogin)]
      ensures HasCredentials(storage.items) ==>
        effects == old(effects) + [Request(AddItemRequest(storage.items[CurrentUserKey], itemId)), Alert(OutcomeAlert(reply))]
    {
      if CurrentUserKey !in storage.items {
        effects := effects + [Alert(LoginRequired)];
      } else {
        var userData := storage.items[CurrentUserKey];
        if Nullish(userData) {
          effects := effects + [Alert(PropertyReadError(userData, "auth_id"))];
        } else {
          var authId := Get(userData, "auth_id");
          var accessToken := Get(userData, "access_token");
          if !Truthy(authId) || !Truthy(accessToken) {
            effects := effects + [Alert(InvalidLogin)];
          } else {
            loading := true;
            loadingItemId := Some(itemId);
            effects := effects + [Request(AddItemRequest(userData, itemId))];
            effects := effects + [Alert(OutcomeAlert(reply))];
          }
        }
      }
      loading := false;
      loadingItemId := None;
    }
  }

  /** A refusal carrying an error text shows that text; one without shows the default. */
  lemma RefusalAlert(status: int, data: Value)
    requires !Http.Ok(status) && !Nullish(data)
    ensures Truthy(Get(data, "error")) ==> OutcomeAlert(Http.Answered(status, Http.Json(data))) == ToJsString(Get(data, "error"))
    ensures !Truthy(Get(data, "error")) ==> OutcomeAlert(Http.Answered(status, Http.Json(data))) == NotReceived
  {
  }
}
