/**
 * The fetch-and-normalise step every list page repeats: an axios GET whose
 * body is a bare array, or an object whose `data` is an array, or anything
 * else; then `items`, `isLoading` and an error toast set in sequence.
 */
module ResponseShape {
  import opened Wrappers
  import opened JsValues

  /** The shape of `response.data`, with the items already typed. */
  datatype Body<T> =
    | ArrayBody(items: seq<T>)
    /** An object; `data` is `None` when its `data` property is not an array. */
    | ObjectBody(success: JsValue, data: Option<seq<T>>)
    /** `null`, a string, a number, and the like. */
    | OtherBody

  /** An axios promise: a body, or a rejection (network error or non-2xx status). */
  datatype AxiosResult<T> = Got(body: Body<T>) | Failed(error: AxiosError)

  /** An axios rejection: `error.response?.data?.message` (absent when `None`) and `error.message`. */
  datatype AxiosError = AxiosError(responseMessage: Option<string>, message: string)

  /** A toast: title, optional description, and whether it is the destructive variant. */
  datatype Toast = Toast(title: string, description: Option<string>, destructive: bool)

  /** `Array.isArray(body) ? body : body && Array.isArray(body.data) ? body.data : []`. */
  function Normalise<T>(b: Body<T>): (items: seq<T>)
    ensures b.ArrayBody? ==> items == b.items
    ensures b.ObjectBody? && b.data.Some? ==> items == b.data.value
    ensures b.OtherBody? || (b.ObjectBody? && b.data.None?) ==> items == []
  {
    match b
    case ArrayBody(xs) => xs
    case ObjectBody(_, d) => if d.Some? then d.value else []
    case OtherBody => []
  }

  /** The stricter variant: `body.data` is taken only when `body.success` is truthy. */
  function NormaliseSuccess<T>(b: Body<T>): (items: seq<T>)
    ensures b.ObjectBody? && Truthy(b.success) && b.data.Some? ==> items == b.data.value
    ensures b.ArrayBody? ==> items == b.items
    ensures b.ObjectBody? && !Truthy(b.success) ==> items == []
  {
    if b.ObjectBody? && Truthy(b.success) && b.data.Some? then b.data.value
    else if b.ArrayBody? then b.items
    else []
  }

  /** The two normalisers differ only on objects whose `success` is falsy. */
  lemma NormalisersAgree<T>(b: Body<T>)
    ensures NormaliseSuccess(b) == if b.ObjectBody? && !Truthy(b.success) then [] else Normalise(b)
  {
  }

  /** The toast description for a failed mutation: the server's message, else the error's, else `fallback`. */
  function ErrorDescription(e: AxiosError, fallback: string): (d: string)
    ensures e.responseMessage.Some? && e.responseMessage.value != "" ==> d == e.responseMessage.value
    ensures (e.responseMessage.None? || e.responseMessage.value == "") && e.message != "" ==> d == e.message
    ensures (e.responseMessage.None? || e.responseMessage.value == "") && e.message == "" ==> d == fallback
    ensures d != "" || fallback == ""
  {
    if e.responseMessage.Some? && e.responseMessage.value != "" then e.responseMessage.value
    else if e.message != "" then e.message
    else fallback
  }

  /** One page's list, its loading flag, and the fetch that fills it. */
  class CollectionPage<T> {
    var items: seq<T>
    var isLoading: bool
    /** The description of the toast shown when the fetch fails. */
    const errorText: string
    /** Whether this page uses `NormaliseSuccess` rather than `Normalise`. */
    const requireSuccess: bool

    constructor (initialLoading: bool, errorText: string, requireSuccess: bool)
      ensures items == [] && isLoading == initialLoading
      ensures this.errorText == errorText && this.requireSuccess == requireSuccess
    {
      items := [];
      isLoading := initialLoading;
      this.errorText := errorText;
      this.requireSuccess := requireSuccess;
    }

    /** The list a body yields on this page. */
    function Extract(b: Body<T>): seq<T> {
      if requireSuccess then NormaliseSuccess(b) else Normalise(b)
    }

    /**
     * `fetchCategories`: loading on, then the normalised body, or `[]` and an
     * error toast when the request fails; loading always ends off.
     */
    method Fetch(result: AxiosResult<T>) returns (toast: Option<Toast>)
      modifies this
      ensures !isLoading
      ensures result.Got? ==> items == Extract(result.body) && toast == None
      ensures result.Failed? ==> items == [] && toast == Some(Toast("Error", Some(errorText), true))
    {
      isLoading := true;
      match result {
        case Got(body) =>
          items := if requireSuccess then NormaliseSuccess(body) else Normalise(body);
          toast := None;
        case Failed(_) =>
          items := [];
          toast := Some(Toast("Error", Some(errorText), true));
      }
      isLoading := false;
    }
  }
}
