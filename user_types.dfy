/** The records of src/types/user.ts. Optional and nullable properties become Option. */
module UserTypes {
  import opened Wrappers

  datatype User = User(
    id: int,
    email: string,
    username: string,
    fullName: Option<string>,
    emailPassword: Option<string>,
    isActive: bool,
    isSuperuser: bool,
    createdAt: string,
    updatedAt: Option<string>)

  datatype UserCreate = UserCreate(
    email: string,
    username: string,
    password: string,
    fullName: Option<string>,
    emailPassword: Option<string>)

  /** A partial update: an absent property is left as it is by the server. */
  datatype UserUpdate = UserUpdate(
    email: Option<string>,
    username: Option<string>,
    password: Option<string>,
    fullName: Option<string>,
    emailPassword: Option<string>,
    isActive: Option<bool>,
    isSuperuser: Option<bool>)
}
