/**
 * The admin user list. The list itself is state without a setter; the only
 * thing that changes is which rows are expanded.
 */
module AdminUsers {
  import opened RowToggle

  datatype User = User(userId: string, name: string, email: string, phone: string)

  class UserListPage {
    /** `const [users] = useState(...)`: never reassigned. */
    const users: seq<User>
    var expandedRows: seq<string>

    constructor(list: seq<User>)
      ensures users == list && expandedRows == []
    {
      users := list;
      expandedRows := [];
    }

    /** Flips one row; the user list cannot change, since it is a constant field. */
    method ToggleRow(userId: string)
      modifies this
      ensures expandedRows == Toggled(old(expandedRows), userId)
      ensures userId in expandedRows <==> userId !in old(expandedRows)
      ensures forall other :: other != userId ==> (other in expandedRows <==> other in old(expandedRows))
    {
      ToggledMembership(expandedRows, userId, userId);
      forall other | other != userId
        ensures other in Toggled(expandedRows, userId) <==> other in expandedRows
      {
        ToggledMembership(expandedRows, userId, other);
      }
      expandedRows := Toggled(expandedRows, userId);
    }
  }
}
