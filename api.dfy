// Shapes shared by the client composables and the server handlers: the JSON
// envelope every endpoint answers with, the records carried inside it, and the
// two JavaScript truthiness rules the client code branches on.
module Api {

  datatype Option<+T> = None | Some(value: T)

  /** The uniform `{ code, message, data }` reply; `code == 0` means success. */
  datatype Envelope<+T> = Envelope(code: int, message: string, data: Option<T>)

  /** Body of `POST /api/auth/login` as the client sends it. */
  datatype LoginRequest = LoginRequest(email: string, password: string)

  /** What the client expects in a successful login envelope. */
  datatype AuthTokens = AuthTokens(accessToken: string, tokenType: string, expiresIn: int)

  datatype Gender = Unknown | Male | Female

  datatype AccountStatus = Active | Disabled | Locked | Deleted

  /** The profile record returned by the user-info endpoint; the client stores it whole. */
  datatype UserInfo = UserInfo(
    id: string,
    username: string,
    nickname: string,
    email: string,
    phone: string,
    gender: Gender,
    avatar: string,
    status: AccountStatus,
    deptId: string,
    deptName: string,
    loginIp: string,
    loginDate: string,
    remark: string,
    createdAt: string,
    updatedAt: string)

  /** What the upload client expects in a successful upload envelope. */
  datatype FileUploadResponse = FileUploadResponse(
    id: string,
    originalName: string,
    storageName: string,
    size: int,
    contentType: string,
    downloadUrl: string,
    md5: string)

  /** `!!s` for a string that may be null: the empty string is falsy too. */
  predicate Truthy(s: Option<string>)
  {
    s.Some? && s.value != ""
  }

  /** `message || fallback`: an empty (or absent) message gives way to the fallback. */
  function Or(message: string, fallback: string): string
  {
    if message != "" then message else fallback
  }
}
