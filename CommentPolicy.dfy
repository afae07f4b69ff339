/**
  Who may do what with a task's comments: anyone may read them, only the
  task's owner or assignee may write one, and only its author may change or
  delete it.
 */
module CommentPolicy {
  import opened Wrappers
  import TaskPolicy

  type UserId = TaskPolicy.UserId
  type TaskRef = TaskPolicy.TaskRef

  /** A comment, seen through its author's id (user_id). */
  datatype CommentRef = CommentRef(userId: UserId)

  function ViewAny(user: UserId): (allowed: bool)
    ensures allowed
  {
    true
  }

  function View(user: UserId, comment: CommentRef): (allowed: bool)
    ensures allowed
  {
    true
  }

  /** Commenting on a task: its owner or its assignee. */
  function Create(user: UserId, task: TaskRef): (allowed: bool)
    ensures allowed <==> user == task.userId || TaskPolicy.IsAssignee(user, task)
  {
    user == task.userId || task.assignedUserId == Some(user)
  }

  function Update(user: UserId, comment: CommentRef): (allowed: bool)
    ensures allowed <==> user == comment.userId
  {
    user == comment.userId
  }

  function Delete(user: UserId, comment: CommentRef): (allowed: bool)
    ensures allowed <==> user == comment.userId
  {
    user == comment.userId
  }

  /** update and delete always agree. */
  lemma UpdateAndDeleteAgree(user: UserId, comment: CommentRef)
    ensures Update(user, comment) == Delete(user, comment)
  {
  }

  /**
    Owning the task's project is not enough to comment on the task, although
    it is enough to manage the task; conversely the assignee may comment
    without being allowed to manage.
   */
  lemma ProjectOwnerAloneCannotComment(user: UserId, task: TaskRef)
    requires user == task.projectUserId && user != task.userId && !TaskPolicy.IsAssignee(user, task)
    ensures !Create(user, task)
    ensures TaskPolicy.Update(user, task)
  {
  }

  /** Whoever may comment on a task may also view it. */
  lemma CommenterMayViewTask(user: UserId, task: TaskRef)
    requires Create(user, task)
    ensures TaskPolicy.View(user, task)
  {
  }
}
