/**
  Who may do what with a task.  The task is seen through the three ids the
  rules read: its owner (user_id), its assignee (assigned_user_id, possibly
  null) and its project's owner (project.user_id).
 */
module TaskPolicy {
  import opened Wrappers

  type UserId = int

  datatype TaskRef = TaskRef(userId: UserId, assignedUserId: Option<UserId>, projectUserId: UserId)

  /** The project's owner or the task's owner. */
  predicate Manages(user: UserId, task: TaskRef)
  {
    user == task.projectUserId || user == task.userId
  }

  predicate IsAssignee(user: UserId, task: TaskRef)
  {
    task.assignedUserId == Some(user)
  }

  function ViewAny(user: UserId): (allowed: bool)
    ensures allowed
  {
    true
  }

  function View(user: UserId, task: TaskRef): (allowed: bool)
    ensures allowed <==> Manages(user, task) || IsAssignee(user, task)
  {
    user == task.projectUserId || user == task.userId || task.assignedUserId == Some(user)
  }

  function Create(user: UserId): (allowed: bool)
    ensures allowed
  {
    true
  }

  function Update(user: UserId, task: TaskRef): (allowed: bool)
    ensures allowed <==> Manages(user, task)
  {
    user == task.projectUserId || user == task.userId
  }

  function Delete(user: UserId, task: TaskRef): (allowed: bool)
    ensures allowed <==> Manages(user, task)
  {
    user == task.projectUserId || user == task.userId
  }

  function Assign(user: UserId, task: TaskRef): (allowed: bool)
    ensures allowed <==> Manages(user, task)
  {
    user == task.projectUserId || user == task.userId
  }

  /** update, delete and assign are one rule, and whoever passes it may also view the task. */
  lemma ManagingRulesAgreeAndImplyView(user: UserId, task: TaskRef)
    ensures Update(user, task) == Delete(user, task) == Assign(user, task)
    ensures Update(user, task) ==> View(user, task)
  {
  }

  /** Being assigned is enough to view a task but not to change, delete or reassign it. */
  lemma AssigneeAloneMayOnlyView(user: UserId, task: TaskRef)
    requires IsAssignee(user, task) && user != task.userId && user != task.projectUserId
    ensures View(user, task)
    ensures !Update(user, task) && !Delete(user, task) && !Assign(user, task)
  {
  }

  /** A user with no tie to the task or its project may only list tasks and create new ones. */
  lemma StrangerIsDenied(user: UserId, task: TaskRef)
    requires !Manages(user, task) && !IsAssignee(user, task)
    ensures !View(user, task) && !Update(user, task) && !Delete(user, task) && !Assign(user, task)
    ensures ViewAny(user) && Create(user)
  {
  }
}
