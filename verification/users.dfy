/** The public profile of a user as the chat screens receive it. */
module Users {
  import opened Wrappers

  /** `UserInfo`: id, display name and optional image URL. */
  datatype UserInfo = UserInfo(id: string, name: string, image: Option<string>)
}
