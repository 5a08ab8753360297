/** The task record, the seeded task table and the status codes the handlers answer with. */
module Tasks {

  /** One task. `id` is also the key the task is stored under. */
  datatype Task = Task(id: string, description: string, note: string, applications: seq<string>)

  /** The in-memory task table: task ID to task. */
  type Store = map<string, Task>

  const StatusOK := 200
  const StatusCreated := 201
  const StatusBadRequest := 400
  const StatusInternalServerError := 500

  /** The fixed text sent back by the fetch and delete handlers for an unknown ID. */
  const NotFoundMessage: string := "Задача с указанным id отсутствует"

  /** Every entry of the table is stored under its own ID. */
  ghost predicate WellKeyed(m: Store)
  {
    forall k :: k in m ==> m[k].id == k
  }

  /** The table the service starts with: two tasks, under the keys "1" and "2". */
  function Seed(): (m: Store)
    ensures m.Keys == {"1", "2"}
    ensures WellKeyed(m)
  {
    map[
      "1" := Task(
        "1",
        "Сделать финальное задание темы REST API",
        "Если сегодня сделаю, то завтра будет свободный день. Ура!",
        ["VS Code", "Terminal", "git"]),
      "2" := Task(
        "2",
        "Протестировать финальное задание с помощью Postmen",
        "Лучше это делать в процессе разработки, каждый раз, когда запускаешь сервер и проверяешь хендлер",
        ["VS Code", "Terminal", "git", "Postman"])
    ]
  }
}
