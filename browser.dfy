/**
 * The browser as the pages see it: `localStorage`, and the effects a handler
 * can have that the model records in order: an `alert`, a `router.push`, and
 * a request to the service layer or an API route.
 */
module Browser {
  import opened Js
  import UserService

  const CurrentUserKey := "currentUser"
  const RememberedUsernameKey := "rememberedUsername"
  const UnexpectedError := "Đã xảy ra lỗi không mong đợi!"

  /**
   * `localStorage`.  A value saved with `JSON.stringify` is held as the value it
   * encodes, so `JSON.parse(getItem(k))` gives it back.
   */
  class Storage {
    var items: map<string, Value>

    constructor (initial: map<string, Value>)
      ensures items == initial
    {
      items := initial;
    }

    method SetItem(key: string, value: Value)
      modifies this
      ensures items == old(items)[key := value]
    {
      items := items[key := value];
    }

    method RemoveItem(key: string)
      modifies this
      ensures items == old(items) - {key}
    {
      items := items - {key};
    }
  }

  /** The outgoing calls the pages make, with the arguments they pass. */
  datatype ApiCall =
    | LoginCall(username: string, password: string)
    | RegisterCall(username: string, password: string)
    | BalanceCall(username: string)
    | DepositCall(currency: UserService.Currency, account: Value, amount: int)
    | AddItemCall(authorization: string, authIdHeader: string, body: Value)

  datatype UiEffect = Alert(text: string) | Navigate(path: string) | Request(call: ApiCall)

  /** What an `await` inside a `try` produced: the value, or a throw with its message. */
  datatype Awaited<T> = Settled(value: T) | Threw(message: string)
}
