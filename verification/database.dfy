/**
 * The two MongoDB collections the server and the scheduler share, held in
 * memory: todos and users keyed by their ObjectID.
 */
module Database {
  import opened SchemaTypes
  import opened TodoModel
  import opened UserModel

  class Store {
    /** The `todos` collection. */
    var todos: map<Id, Todo>
    /** The `users` collection. */
    var users: map<Id, User>
    /** The driver's `ObjectID.isValid`, taken as given. */
    const isValidId: Id -> bool

    constructor (isValidId: Id -> bool)
      ensures todos == map[] && users == map[]
      ensures this.isValidId == isValidId
    {
      todos := map[];
      users := map[];
      this.isValidId := isValidId;
    }
  }
}
