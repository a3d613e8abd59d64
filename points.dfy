/** An immutable integer coordinate pair (GUI/GUI.Client/Models/Point2D.cs). */
module Points {

  datatype Point2D = Point2D(x: int, y: int)
}
