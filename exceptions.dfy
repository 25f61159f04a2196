/**
 * The platform's error codes and the exceptions the client raises.
 *
 * `ErrorCodes` is the table from platform code to (label, detail, exception
 * class); `Raised` is every exception the modelled code can raise, so that an
 * operation returns either its value or the exception Python would raise.
 */
module Exceptions {

  /** One constructor per exception class (the first keeps the class's own spelling). */
  datatype ErrorKind =
    | InvailedToken
    | ValidationError
    | InvalidWebhookURL
    | ExecutionCountLimitation
    | ApplicationDisabled
    | Protected
    | Duplicate
    | TooManyComments
    | OutOfScope
    | EmailUnverified
    | BadRequest
    | Forbidden
    | NotFound
    | InternalServerError

  /** A table entry: the short name (label), the detail text and the exception class. */
  datatype ErrorEntry = ErrorEntry(name: string, detail: string, kind: ErrorKind)

  const ErrorCodes: map<int, ErrorEntry> := map[
    1000 := ErrorEntry("Invalid Token", "アクセストークンが不正", InvailedToken),
    1001 := ErrorEntry("Validation Error", "バリデーションエラー", ValidationError),
    1002 := ErrorEntry("Invalid Webhook URL", "WebHook URL の登録が必要なAPIで、URLが登録されていない または URLの形式が不正", InvalidWebhookURL),
    2000 := ErrorEntry("Execution Count Limitation", "APIの実行回数上限", ExecutionCountLimitation),
    2001 := ErrorEntry("Application Disabled", "アプリケーションが無効化されてます（サポートへお問い合わせください）", ApplicationDisabled),
    2002 := ErrorEntry("Protected", "コンテンツが保護されている (合言葉配信等)", Protected),
    2003 := ErrorEntry("Duplicate Comment", "多重投稿時 (連続で同じコメントを送信した時等)", Duplicate),
    2004 := ErrorEntry("Too Many Comments", "コメント数が上限に達している (一定数以上のコメントがある配信で、配信が終了している場合にこのエラーが発生することがあります)", TooManyComments),
    2005 := ErrorEntry("Out of Scope", "書込み・配信などの権限がない", OutOfScope),
    2006 := ErrorEntry("Email Unverified", "Emailの確認が済んでおらず機能が利用できない", EmailUnverified),
    400 := ErrorEntry("Bad Request", "パラメータが不正な時 (バリデーション上問題ないが、パラメータで指定した対象が存在しない場合等)", BadRequest),
    403 := ErrorEntry("Forbidden", "権限の無いリソースへのアクセス", Forbidden),
    404 := ErrorEntry("Not Found", "コンテンツが見つからない", NotFound),
    500 := ErrorEntry("Internal Server Error", "その他エラー", InternalServerError)
  ]

  /** The exceptions the modelled code raises. */
  datatype Raised =
    | ValueError(message: string)
      /** `.get` called on a decoded value that is not a dict; carries the value's type name. */
    | AttributeError(typeName: string)
    | TypeError(message: string)
      /** Python's recursion limit was reached. */
    | RecursionError
      /** One of the table's exception classes, raised with the given message. */
    | PlatformError(kind: ErrorKind, message: string)

  /** The code whose entry names the given exception class: the inverse of the table. */
  function CodeOf(kind: ErrorKind): (code: int)
    ensures code in ErrorCodes && ErrorCodes[code].kind == kind
  {
    match kind
    case InvailedToken => 1000
    case ValidationError => 1001
    case InvalidWebhookURL => 1002
    case ExecutionCountLimitation => 2000
    case ApplicationDisabled => 2001
    case Protected => 2002
    case Duplicate => 2003
    case TooManyComments => 2004
    case OutOfScope => 2005
    case EmailUnverified => 2006
    case BadRequest => 400
    case Forbidden => 403
    case NotFound => 404
    case InternalServerError => 500
  }

  /** The table has exactly these fourteen codes. */
  lemma ErrorCodesDomain()
    ensures ErrorCodes.Keys == {1000, 1001, 1002, 2000, 2001, 2002, 2003, 2004, 2005, 2006, 400, 403, 404, 500}
  {
  }

  /** Going from a code to its exception class and back gives the code: the map is injective. */
  lemma CodeOfInvertsTable(code: int)
    requires code in ErrorCodes
    ensures CodeOf(ErrorCodes[code].kind) == code
  {
  }

  /** No two codes share an exception class. */
  lemma KindsInjective(c1: int, c2: int)
    requires c1 in ErrorCodes && c2 in ErrorCodes && c1 != c2
    ensures ErrorCodes[c1].kind != ErrorCodes[c2].kind
  {
    CodeOfInvertsTable(c1);
    CodeOfInvertsTable(c2);
  }

  /** Every entry's label (name) is non-empty. */
  lemma LabelsNonEmpty(code: int)
    requires code in ErrorCodes
    ensures ErrorCodes[code].name != "" && ErrorCodes[code].detail != ""
  {
  }

  lemma SelectedEntries()
    ensures ErrorCodes[404].name == "Not Found" && ErrorCodes[404].kind == NotFound
    ensures ErrorCodes[404].detail == "コンテンツが見つからない"
    ensures ErrorCodes[2002].name == "Protected" && ErrorCodes[2002].kind == Protected
    ensures ErrorCodes[1000].name == "Invalid Token" && ErrorCodes[1000].kind == InvailedToken
  {
  }
}
