/**
 * The application-wide error table: every entry carries a code string, a
 * default message and the HTTP status the API answers with.
 */
module ErrorCodes {
  import opened Common

  /** The subset of Spring's `HttpStatus` the table uses. */
  datatype HttpStatus = BadRequest | Unauthorized | Forbidden | NotFound | Conflict | InternalServerError {
    function Value(): (r: nat)
      ensures 400 <= r < 600
    {
      match this
      case BadRequest => 400
      case Unauthorized => 401
      case Forbidden => 403
      case NotFound => 404
      case Conflict => 409
      case InternalServerError => 500
    }
  }

  /** The entries of the enum, in declaration order. */
  datatype ErrorCode =
    | InvalidParam
    | ValidationFailed
    | NotFound
    | InternalError
    | InternalServerError
    | AccessDenied
    | Unauthorized
    | UserIdMismatch
    | DuplicateEmail
    | InvalidCredentials
    | UserNotFound
    | UserSuspended
    | StoreNotFound
    | StoreClosed
    | StoreAccessDenied
    | MenuNotFound
    | MenuUnavailable
    | StockEmpty
    | DuplicateMenu
    | OrderNotFound
    | OrderAlreadyCompleted
    | OrderCannotCancel
    | OrderNumberInvalid
    | PaymentFailed
    | PaymentAlreadyProcessed
    | PaymentMethodUnsupported
    | PaymentAmountMismatch
    | DeliveryNotFound
    | DeliveryAlreadyCompleted
    | DeliveryAssignFailed
    | DeliveryStatusInvalid
  {
    /** The code string shown to clients. */
    function Code(): string {
      match this
      case InvalidParam => "COMMON_001"
      case ValidationFailed => "COMMON_002"
      case NotFound => "COMMON_003"
      case InternalError => "COMMON_004"
      case InternalServerError => "COMMON_005"
      case AccessDenied => "COMMON_006"
      case Unauthorized => "AUTH_001"
      case UserIdMismatch => "USER_001"
      case DuplicateEmail => "USER_002"
      case InvalidCredentials => "USER_003"
      case UserNotFound => "USER_004"
      case UserSuspended => "USER_005"
      case StoreNotFound => "STORE_001"
      case StoreClosed => "STORE_002"
      case StoreAccessDenied => "STORE_003"
      case MenuNotFound => "MENU_001"
      case MenuUnavailable => "MENU_002"
      case StockEmpty => "MENU_003"
      case DuplicateMenu => "MENU_004"
      case OrderNotFound => "ORDER_001"
      case OrderAlreadyCompleted => "ORDER_002"
      case OrderCannotCancel => "ORDER_003"
      case OrderNumberInvalid => "ORDER_004"
      case PaymentFailed => "PAYMENT_001"
      case PaymentAlreadyProcessed => "PAYMENT_002"
      case PaymentMethodUnsupported => "PAYMENT_003"
      case PaymentAmountMismatch => "PAYMENT_004"
      case DeliveryNotFound => "DELIVERY_001"
      case DeliveryAlreadyCompleted => "DELIVERY_002"
      case DeliveryAssignFailed => "DELIVERY_003"
      case DeliveryStatusInvalid => "DELIVERY_004"
    }

    /** The default message. */
    function Message(): string {
      match this
      case InvalidParam => "잘못된 파라미터입니다."
      case ValidationFailed => "입력값 유효성 검증에 실패했습니다."
      case NotFound => "리소스를 찾을 수 없습니다."
      case InternalError => "서버 내부 오류가 발생했습니다."
      case InternalServerError => "서버 내부 오류가 발생했습니다."
      case AccessDenied => "접근 권한이 없습니다."
      case Unauthorized => "인증에 실패했습니다."
      case UserIdMismatch => "사용자 아이디가 일치하지 않습니다."
      case DuplicateEmail => "이미 사용 중인 이메일입니다."
      case InvalidCredentials => "아이디 또는 비밀번호가 올바르지 않습니다."
      case UserNotFound => "사용자를 찾을 수 없습니다."
      case UserSuspended => "정지된 사용자입니다."
      case StoreNotFound => "매장을 찾을 수 없습니다."
      case StoreClosed => "매장이 현재 영업 중이 아닙니다."
      case StoreAccessDenied => "해당 매장에 접근할 수 없습니다."
      case MenuNotFound => "메뉴를 찾을 수 없습니다."
      case MenuUnavailable => "해당 메뉴는 현재 주문할 수 없습니다."
      case StockEmpty => "메뉴 재고가 부족합니다."
      case DuplicateMenu => "이미 존재하는 메뉴입니다."
      case OrderNotFound => "주문을 찾을 수 없습니다."
      case OrderAlreadyCompleted => "이미 완료된 주문입니다."
      case OrderCannotCancel => "현재 상태에서는 주문을 취소할 수 없습니다."
      case OrderNumberInvalid => "주문 번호가 올바르지 않습니다."
      case PaymentFailed => "결제에 실패했습니다."
      case PaymentAlreadyProcessed => "이미 처리된 결제입니다."
      case PaymentMethodUnsupported => "지원하지 않는 결제 수단입니다."
      case PaymentAmountMismatch => "결제 금액이 올바르지 않습니다."
      case DeliveryNotFound => "배달 정보를 찾을 수 없습니다."
      case DeliveryAlreadyCompleted => "이미 완료된 배달입니다."
      case DeliveryAssignFailed => "배달원을 배정할 수 없습니다."
      case DeliveryStatusInvalid => "배달 상태가 올바르지 않습니다."
    }

    /** The HTTP status of the response. */
    function Status(): HttpStatus {
      match this
      case InvalidParam => HttpStatus.BadRequest
      case ValidationFailed => HttpStatus.BadRequest
      case NotFound => HttpStatus.NotFound
      case InternalError => HttpStatus.InternalServerError
      case InternalServerError => HttpStatus.InternalServerError
      case AccessDenied => HttpStatus.Forbidden
      case Unauthorized => HttpStatus.Unauthorized
      case UserIdMismatch => HttpStatus.Unauthorized
      case DuplicateEmail => HttpStatus.Conflict
      case InvalidCredentials => HttpStatus.Unauthorized
      case UserNotFound => HttpStatus.NotFound
      case UserSuspended => HttpStatus.Forbidden
      case StoreNotFound => HttpStatus.NotFound
      case StoreClosed => HttpStatus.BadRequest
      case StoreAccessDenied => HttpStatus.Forbidden
      case MenuNotFound => HttpStatus.NotFound
      case MenuUnavailable => HttpStatus.BadRequest
      case StockEmpty => HttpStatus.Conflict
      case DuplicateMenu => HttpStatus.Conflict
      case OrderNotFound => HttpStatus.NotFound
      case OrderAlreadyCompleted => HttpStatus.Conflict
      case OrderCannotCancel => HttpStatus.BadRequest
      case OrderNumberInvalid => HttpStatus.BadRequest
      case PaymentFailed => HttpStatus.BadRequest
      case PaymentAlreadyProcessed => HttpStatus.Conflict
      case PaymentMethodUnsupported => HttpStatus.BadRequest
      case PaymentAmountMismatch => HttpStatus.BadRequest
      case DeliveryNotFound => HttpStatus.NotFound
      case DeliveryAlreadyCompleted => HttpStatus.Conflict
      case DeliveryAssignFailed => HttpStatus.BadRequest
      case DeliveryStatusInvalid => HttpStatus.BadRequest
    }

    /** `toString()`: the code, a spaced dash, then the message. */
    function ToString(): string {
      Code() + " - " + Message()
    }
  }

  /** The entry whose code string is `s`, if any; codes of different
      lengths are told apart by their length first. */
  function FromCode(s: string): (r: Option<ErrorCode>) {
    if |s| == 8 then
      if s == "AUTH_001" then Some(ErrorCode.Unauthorized)
      else if s == "USER_001" then Some(ErrorCode.UserIdMismatch)
      else if s == "USER_002" then Some(ErrorCode.DuplicateEmail)
      else if s == "USER_003" then Some(ErrorCode.InvalidCredentials)
      else if s == "USER_004" then Some(ErrorCode.UserNotFound)
      else if s == "USER_005" then Some(ErrorCode.UserSuspended)
      else if s == "MENU_001" then Some(ErrorCode.MenuNotFound)
      else if s == "MENU_002" then Some(ErrorCode.MenuUnavailable)
      else if s == "MENU_003" then Some(ErrorCode.StockEmpty)
      else if s == "MENU_004" then Some(ErrorCode.DuplicateMenu)
      else None
    else if |s| == 9 then
      if s == "STORE_001" then Some(ErrorCode.StoreNotFound)
      else if s == "STORE_002" then Some(ErrorCode.StoreClosed)
      else if s == "STORE_003" then Some(ErrorCode.StoreAccessDenied)
      else if s == "ORDER_001" then Some(ErrorCode.OrderNotFound)
      else if s == "ORDER_002" then Some(ErrorCode.OrderAlreadyCompleted)
      else if s == "ORDER_003" then Some(ErrorCode.OrderCannotCancel)
      else if s == "ORDER_004" then Some(ErrorCode.OrderNumberInvalid)
      else None
    else if |s| == 10 then
      if s == "COMMON_001" then Some(ErrorCode.InvalidParam)
      else if s == "COMMON_002" then Some(ErrorCode.ValidationFailed)
      else if s == "COMMON_003" then Some(ErrorCode.NotFound)
      else if s == "COMMON_004" then Some(ErrorCode.InternalError)
      else if s == "COMMON_005" then Some(ErrorCode.InternalServerError)
      else if s == "COMMON_006" then Some(ErrorCode.AccessDenied)
      else None
    else if |s| == 11 then
      if s == "PAYMENT_001" then Some(ErrorCode.PaymentFailed)
      else if s == "PAYMENT_002" then Some(ErrorCode.PaymentAlreadyProcessed)
      else if s == "PAYMENT_003" then Some(ErrorCode.PaymentMethodUnsupported)
      else if s == "PAYMENT_004" then Some(ErrorCode.PaymentAmountMismatch)
      else None
    else if |s| == 12 then
      if s == "DELIVERY_001" then Some(ErrorCode.DeliveryNotFound)
      else if s == "DELIVERY_002" then Some(ErrorCode.DeliveryAlreadyCompleted)
      else if s == "DELIVERY_003" then Some(ErrorCode.DeliveryAssignFailed)
      else if s == "DELIVERY_004" then Some(ErrorCode.DeliveryStatusInvalid)
      else None
    else None
  }

  /** The lookup finds the entries whose codes have 8 characters. */
  lemma FromCodeOfEightLetterCode(e: ErrorCode)
    requires e.Unauthorized? || e.UserIdMismatch? || e.DuplicateEmail? || e.InvalidCredentials? || e.UserNotFound? || e.UserSuspended? || e.MenuNotFound? || e.MenuUnavailable? || e.StockEmpty? || e.DuplicateMenu?
    ensures FromCode(e.Code()) == Some(e)
  {
  }

  /** The lookup finds the entries whose codes have 9 characters. */
  lemma FromCodeOfNineLetterCode(e: ErrorCode)
    requires e.StoreNotFound? || e.StoreClosed? || e.StoreAccessDenied? || e.OrderNotFound? || e.OrderAlreadyCompleted? || e.OrderCannotCancel? || e.OrderNumberInvalid?
    ensures FromCode(e.Code()) == Some(e)
  {
  }

  /** The lookup finds the entries whose codes have 10 characters. */
  lemma FromCodeOfTenLetterCode(e: ErrorCode)
    requires e.InvalidParam? || e.ValidationFailed? || e.NotFound? || e.InternalError? || e.InternalServerError? || e.AccessDenied?
    ensures FromCode(e.Code()) == Some(e)
  {
  }

  /** The lookup finds the entries whose codes have 11 characters. */
  lemma FromCodeOfElevenLetterCode(e: ErrorCode)
    requires e.PaymentFailed? || e.PaymentAlreadyProcessed? || e.PaymentMethodUnsupported? || e.PaymentAmountMismatch?
    ensures FromCode(e.Code()) == Some(e)
  {
  }

  /** The lookup finds the entries whose codes have 12 characters. */
  lemma FromCodeOfTwelveLetterCode(e: ErrorCode)
    requires e.DeliveryNotFound? || e.DeliveryAlreadyCompleted? || e.DeliveryAssignFailed? || e.DeliveryStatusInvalid?
    ensures FromCode(e.Code()) == Some(e)
  {
  }

  /** Looking a code string up finds the entry it came from. */
  lemma FromCodeOfCode(e: ErrorCode)
    ensures FromCode(e.Code()) == Some(e)
  {
    if e.Unauthorized? || e.UserIdMismatch? || e.DuplicateEmail? || e.InvalidCredentials? || e.UserNotFound? || e.UserSuspended? || e.MenuNotFound? || e.MenuUnavailable? || e.StockEmpty? || e.DuplicateMenu? {
      FromCodeOfEightLetterCode(e);
    } else if e.StoreNotFound? || e.StoreClosed? || e.StoreAccessDenied? || e.OrderNotFound? || e.OrderAlreadyCompleted? || e.OrderCannotCancel? || e.OrderNumberInvalid? {
      FromCodeOfNineLetterCode(e);
    } else if e.InvalidParam? || e.ValidationFailed? || e.NotFound? || e.InternalError? || e.InternalServerError? || e.AccessDenied? {
      FromCodeOfTenLetterCode(e);
    } else if e.PaymentFailed? || e.PaymentAlreadyProcessed? || e.PaymentMethodUnsupported? || e.PaymentAmountMismatch? {
      FromCodeOfElevenLetterCode(e);
    } else {
      FromCodeOfTwelveLetterCode(e);
    }
  }

  /** All code strings are pairwise distinct, as the table's own comment
      demands: the lookup by code is a left inverse of `Code()`. */
  lemma CodesUnique(a: ErrorCode, b: ErrorCode)
    ensures a.Code() == b.Code() <==> a == b
  {
    FromCodeOfCode(a);
    FromCodeOfCode(b);
  }

  /** The part of a string before its first space. */
  function BeforeSpace(s: string): (r: string)
    ensures |r| <= |s| && r == s[..|r|]
    ensures ' ' !in r
  {
    if s == [] || s[0] == ' ' then [] else [s[0]] + BeforeSpace(s[1..])
  }

  lemma {:induction false} BeforeSpaceOfPrefix(x: string, y: string)
    requires ' ' !in x
    requires y != [] && y[0] == ' '
    ensures BeforeSpace(x + y) == x
  {
    if x != [] {
      assert (x + y)[1..] == x[1..] + y;
      BeforeSpaceOfPrefix(x[1..], y);
    }
  }

  /** A space-free code rendered as `toString()` renders it is everything
      before the first space. */
  lemma BeforeSpaceOfRendering(code: string, message: string)
    requires ' ' !in code
    ensures BeforeSpace(code + " - " + message) == code
  {
    assert code + " - " + message == code + (" - " + message);
    BeforeSpaceOfPrefix(code, " - " + message);
  }

  /** Codes are made of capitals, digits and an underscore only. */
  lemma CodeHasNoSpace(e: ErrorCode)
    ensures ' ' !in e.Code()
  {
  }

  /** `toString()` starts with the code, and no code contains a space, so the
      code can be read back from it. */
  lemma CodeOfToString(e: ErrorCode)
    ensures BeforeSpace(e.ToString()) == e.Code()
  {
    CodeHasNoSpace(e);
    BeforeSpaceOfRendering(e.Code(), e.Message());
  }

  /** Distinct entries render distinctly, even the two internal-error entries
      that share their message and status. */
  lemma ToStringInjective(a: ErrorCode, b: ErrorCode)
    ensures a.ToString() == b.ToString() <==> a == b
  {
    CodeOfToString(a);
    CodeOfToString(b);
    CodesUnique(a, b);
  }

  /** Exactly the six not-found entries answer with HTTP 404. */
  lemma NotFoundEntries(e: ErrorCode)
    ensures e.Status() == HttpStatus.NotFound <==>
      e in {ErrorCode.NotFound, UserNotFound, StoreNotFound, MenuNotFound, OrderNotFound, DeliveryNotFound}
  {
  }

  /** The two internal-error entries differ only in their code. */
  lemma InternalErrorsShareAllButCode()
    ensures InternalError.Message() == ErrorCode.InternalServerError.Message()
    ensures InternalError.Status() == ErrorCode.InternalServerError.Status() == HttpStatus.InternalServerError
    ensures InternalError.Code() != ErrorCode.InternalServerError.Code()
  {
  }
}
