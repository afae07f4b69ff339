/**
  The audit trail that Task, TaskComment, TaskImage and CommentImage models
  write on their lifecycle events: which action name each event gets, and
  the record's field values.  Writing the row and registering the hooks
  with the framework are not modelled; the authenticated user's id is a
  parameter.
 */
module LogsActivity {
  import opened Wrappers

  /** An attribute value as the model holds it. */
  datatype Value = Null | Int(i: int) | Text(s: string)

  type Attributes = map<string, Value>

  /** The model class the trait is used in. */
  datatype ModelClass = TaskModel | TaskCommentModel | TaskImageModel | CommentImageModel | OtherModel(name: string)

  /** get_class($this) */
  function ClassName(c: ModelClass): string
  {
    match c
    case TaskModel => "App\\Models\\Task"
    case TaskCommentModel => "App\\Models\\TaskComment"
    case TaskImageModel => "App\\Models\\TaskImage"
    case CommentImageModel => "App\\Models\\CommentImage"
    case OtherModel(name) => name
  }

  /**
    A model instance when one of its hooks fires: its current attributes,
    the attributes as last loaded or saved (getOriginal), and the
    attributes changed by the last save (getChanges).
   */
  datatype Model = Model(cls: ModelClass, attributes: Attributes, original: Attributes, changes: Attributes)

  /** $array[$key] with a missing key read as null. */
  function Get(a: Attributes, key: string): Value
  {
    if key in a then a[key] else Null
  }

  /** isset($array[$key]): present and not null. */
  predicate IsSet(a: Attributes, key: string)
  {
    key in a && a[key] != Null
  }

  /** $a ?? $b */
  function Coalesce(a: Value, b: Value): (r: Value)
    ensures r == Null <==> a == Null && b == Null
    ensures a != Null ==> r == a
    ensures a == Null ==> r == b
  {
    if a != Null then a else b
  }

  /** $model->id */
  function Id(m: Model): Value
  {
    Get(m.attributes, "id")
  }

  /** One audit_logs row. */
  datatype AuditRecord = AuditRecord(
    userId: Option<int>,
    action: string,
    modelType: string,
    modelId: Value,
    oldValue: Option<Attributes>,
    newValue: Option<Attributes>)

  /** getCreatedAction */
  function CreatedAction(c: ModelClass): (action: string)
    ensures action == "task_created" <==> c == TaskModel
    ensures action == "comment_added" <==> c == TaskCommentModel
    ensures action == "image_uploaded" <==> c == TaskImageModel || c == CommentImageModel
    ensures action == "created" <==> c.OtherModel?
  {
    if c == TaskModel then "task_created"
    else if c == TaskCommentModel then "comment_added"
    else if c == TaskImageModel || c == CommentImageModel then "image_uploaded"
    else "created"
  }

  /**
    getUpdatedAction: a task whose status changed (to a non-null value) is a
    status change even if it was also reassigned; a task whose assignee
    changed to a non-null user is an assignment; anything else, unassigning
    a task included, is a plain update.
   */
  function UpdatedAction(m: Model): (action: string)
    ensures action == "task_status_changed" <==> m.cls == TaskModel && IsSet(m.changes, "status")
    ensures action == "task_assigned" <==>
      m.cls == TaskModel && !IsSet(m.changes, "status") && IsSet(m.changes, "assigned_user_id")
    ensures action == "updated" <==>
      !(m.cls == TaskModel && (IsSet(m.changes, "status") || IsSet(m.changes, "assigned_user_id")))
  {
    if m.cls == TaskModel && IsSet(m.changes, "status") then "task_status_changed"
    else if m.cls == TaskModel && IsSet(m.changes, "assigned_user_id") then "task_assigned"
    else "updated"
  }

  /** getDeletedAction */
  function DeletedAction(c: ModelClass): (action: string)
    ensures action == "task_deleted" <==> c == TaskModel
    ensures action == "deleted" <==> c != TaskModel
  {
    if c == TaskModel then "task_deleted" else "deleted"
  }

  /**
    $actionMap[$action] ?? $action: the three lifecycle names are replaced
    by the model's own action, any other name is recorded as given.
   */
  function MappedAction(action: string, m: Model): (mapped: string)
    ensures action == "created" ==> mapped == CreatedAction(m.cls)
    ensures action == "updated" ==> mapped == UpdatedAction(m)
    ensures action == "deleted" ==> mapped == DeletedAction(m.cls)
    ensures action != "created" && action != "updated" && action != "deleted" ==> mapped == action
  {
    var actionMap := map["created" := CreatedAction(m.cls), "updated" := UpdatedAction(m), "deleted" := DeletedAction(m.cls)];
    if action in actionMap then actionMap[action] else action
  }

  /**
    logActivity: the record for an action on a model.  model_id is the id
    passed in when it is not null, otherwise the model's own id.
   */
  function LogActivity(m: Model, action: string, oldValue: Option<Attributes>, newValue: Option<Attributes>,
                       modelId: Value, authId: Option<int>): (r: AuditRecord)
    ensures r.action == MappedAction(action, m) && r.modelType == ClassName(m.cls) && r.userId == authId
    ensures r.oldValue == oldValue && r.newValue == newValue
    ensures modelId != Null ==> r.modelId == modelId
    ensures modelId == Null ==> r.modelId == Id(m)
  {
    AuditRecord(authId, MappedAction(action, m), ClassName(m.cls), Coalesce(modelId, Id(m)), oldValue, newValue)
  }

  /** The created hook: no old value, the attributes as new value. */
  function OnCreated(m: Model, authId: Option<int>): AuditRecord
  {
    LogActivity(m, "created", None, Some(m.attributes), Null, authId)
  }

  /** The updated hook: the original attributes as old value, the changes as new value. */
  function OnUpdated(m: Model, authId: Option<int>): AuditRecord
  {
    LogActivity(m, "updated", Some(m.original), Some(m.changes), Null, authId)
  }

  /**
    The deleted hook: the id is the model's id or else its original id; the
    old value is the attributes, or the original attributes when there are
    none; there is no new value.
   */
  function OnDeleted(m: Model, authId: Option<int>): AuditRecord
  {
    var modelId := Coalesce(Id(m), Get(m.original, "id"));
    var modelAttributes := if |m.attributes| == 0 then m.original else m.attributes;
    LogActivity(m, "deleted", Some(modelAttributes), None, modelId, authId)
  }

  /** What each hook records. */
  lemma HookRecords(m: Model, authId: Option<int>)
    ensures OnCreated(m, authId).action == CreatedAction(m.cls)
    ensures OnCreated(m, authId).oldValue == None && OnCreated(m, authId).newValue == Some(m.attributes)
    ensures OnCreated(m, authId).modelId == Id(m)
    ensures OnUpdated(m, authId).action == UpdatedAction(m)
    ensures OnUpdated(m, authId).oldValue == Some(m.original) && OnUpdated(m, authId).newValue == Some(m.changes)
    ensures OnUpdated(m, authId).modelId == Id(m)
    ensures OnDeleted(m, authId).action == DeletedAction(m.cls)
    ensures OnDeleted(m, authId).modelId == if Id(m) != Null then Id(m) else Get(m.original, "id")
    ensures OnDeleted(m, authId).newValue == None
    ensures |m.attributes| > 0 ==> OnDeleted(m, authId).oldValue == Some(m.attributes)
    ensures |m.attributes| == 0 ==> OnDeleted(m, authId).oldValue == Some(m.original)
  {
  }

  /** A deleted model whose attributes were cleared is still logged under its original id. */
  lemma DeletedRecordKeepsOriginalId(m: Model, authId: Option<int>)
    requires |m.attributes| == 0
    ensures OnDeleted(m, authId).modelId == Get(m.original, "id")
    ensures OnDeleted(m, authId).oldValue == Some(m.original)
  {
    assert "id" !in m.attributes;
  }

  /**
    The three hooks never record the same action name for one model, so the
    audit log tells which lifecycle event each row comes from.
   */
  lemma HookActionsDistinct(m: Model, authId: Option<int>)
    ensures OnCreated(m, authId).action != OnUpdated(m, authId).action
    ensures OnCreated(m, authId).action != OnDeleted(m, authId).action
    ensures OnUpdated(m, authId).action != OnDeleted(m, authId).action
  {
    HookRecords(m, authId);
  }

  /** Unassigning a task (assigned_user_id changed to null) is logged as a plain update, not as an assignment. */
  lemma UnassigningIsPlainUpdate(m: Model)
    requires m.cls == TaskModel && !IsSet(m.changes, "status")
    requires "assigned_user_id" in m.changes && m.changes["assigned_user_id"] == Null
    ensures UpdatedAction(m) == "updated"
  {
  }
}
