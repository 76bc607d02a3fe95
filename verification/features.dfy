/** scripts/feature_extraction.py: a static table from task type to a
    five-element feature vector. */
module Features {
  import opened Wrappers

  /** A task record, field name to value, as the source's dict. */
  type Task = map<string, string>

  /** The only field the extractor reads. */
  const TaskTypeField: string := "Task Type"

  /** The known task types and their feature vectors. */
  const FeatureMap: map<string, seq<int>> := map[
    "matrix_multiplication" := [1000, 50000, 3, 1, 1],
    "image_processing" := [5000, 100000, 2, 2, 1],
    "optimization" := [50, 1000000, 1, 3, 5]
  ]

  /** `extract_features`: two dict lookups, each raising `KeyError` on a
      missing key — first the task's "Task Type" field, then the table. */
  function ExtractFeatures(task: Task): (r: Result<seq<int>, Error>)
    ensures r.Success? <==>
      TaskTypeField in task
      && task[TaskTypeField] in {"matrix_multiplication", "image_processing", "optimization"}
    ensures r.Success? ==> |r.value| == 5
    ensures TaskTypeField !in task ==> r == Failure(KeyError(TaskTypeField))
    ensures TaskTypeField in task && r.Failure? ==> r == Failure(KeyError(task[TaskTypeField]))
  {
    if TaskTypeField !in task then Failure(KeyError(TaskTypeField))
    else if task[TaskTypeField] !in FeatureMap then Failure(KeyError(task[TaskTypeField]))
    else Success(FeatureMap[task[TaskTypeField]])
  }

  /** Each known task type yields its fixed vector. */
  lemma FeatureVectors(task: Task)
    requires TaskTypeField in task
    ensures task[TaskTypeField] == "matrix_multiplication" ==>
      ExtractFeatures(task) == Success([1000, 50000, 3, 1, 1])
    ensures task[TaskTypeField] == "image_processing" ==>
      ExtractFeatures(task) == Success([5000, 100000, 2, 2, 1])
    ensures task[TaskTypeField] == "optimization" ==>
      ExtractFeatures(task) == Success([50, 1000000, 1, 3, 5])
  {
  }

  /** Only the "Task Type" field is read: tasks that agree on it (or both lack
      it) get the same answer, whatever their other fields hold. */
  lemma OnlyTaskTypeRead(task: Task, other: Task)
    requires TaskTypeField in task <==> TaskTypeField in other
    requires TaskTypeField in task ==> task[TaskTypeField] == other[TaskTypeField]
    ensures ExtractFeatures(task) == ExtractFeatures(other)
  {
  }
}
