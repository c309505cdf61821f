/** The client-side records of the admin dashboard: users, books and categories,
    as the backend returns them. They carry no behaviour. */
module Types {
  import opened Common

  /** A user's role: "admin" or "user". */
  datatype Role = Admin | PlainUser

  datatype User = User(
    id: int,
    name: string,
    email: string,
    role: Role,
    emailVerifiedAt: Option<string>,
    createdAt: string,
    updatedAt: string)

  /** The three moderation states of a book. */
  datatype BookStatus = Pending | Approved | Rejected

  /** The wire spelling of a status. */
  function StatusName(s: BookStatus): (name: string)
    ensures name != ""
  {
    match s
    case Pending => "pending"
    case Approved => "approved"
    case Rejected => "rejected"
  }

  lemma StatusNameInjective(a: BookStatus, b: BookStatus)
    requires StatusName(a) == StatusName(b)
    ensures a == b
  {
    assert StatusName(a)[0] == StatusName(b)[0];
  }

  datatype FileType = Pdf | Epub

  /** A book as listed by the admin API. The embedded `category` and
      `submitted_by` records are display-only and not part of the model. */
  datatype Book = Book(
    id: int,
    title: string,
    author: string,
    description: Option<string>,
    categoryId: int,
    pages: int,
    fileType: FileType,
    filePath: string,
    coverImage: Option<string>,
    status: BookStatus,
    userId: int,
    downloadsCount: int,
    createdAt: string,
    updatedAt: string,
    deletedAt: Option<string>)

  datatype Category = Category(
    id: int,
    name: string,
    booksCount: Option<int>,
    createdAt: string,
    updatedAt: string)
}
