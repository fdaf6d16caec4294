/** The priority tag a to-do item carries (com.soulll.todoapp.data.models.Priority). */
module Models {

  datatype Priority = HIGH | MEDIUM | LOW
}
