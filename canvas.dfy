/**
 * The 2D drawing context the core draws on, as a recorder: every call appends
 * the command and its arguments to `log`. Pixels are not modelled.
 */
module Canvas {
  import opened JsNumbers

  datatype Command =
    | BeginPath
    | MoveTo(x: Number, y: Number)
    | LineTo(x: Number, y: Number)
    | Arc(x: Number, y: Number, radius: Number, startAngle: Number, endAngle: Number, anticlockwise: bool)
    | ClosePath
    | DrawImage(rect: seq<Number>)
    | GetImageData(rect: seq<Number>)
    | PutImageData(at: seq<Number>)
    | Scale(x: Number, y: Number)
    | ClearRect(rect: seq<Number>)

  class Context {
    var log: seq<Command>

    constructor ()
      ensures log == []
    {
      log := [];
    }

    method BeginPath()
      modifies this
      ensures log == old(log) + [Command.BeginPath]
    {
      log := log + [Command.BeginPath];
    }

    method MoveTo(x: Number, y: Number)
      modifies this
      ensures log == old(log) + [Command.MoveTo(x, y)]
    {
      log := log + [Command.MoveTo(x, y)];
    }

    method LineTo(x: Number, y: Number)
      modifies this
      ensures log == old(log) + [Command.LineTo(x, y)]
    {
      log := log + [Command.LineTo(x, y)];
    }

    method Arc(x: Number, y: Number, radius: Number, startAngle: Number, endAngle: Number, anticlockwise: bool)
      modifies this
      ensures log == old(log) + [Command.Arc(x, y, radius, startAngle, endAngle, anticlockwise)]
    {
      log := log + [Command.Arc(x, y, radius, startAngle, endAngle, anticlockwise)];
    }

    method ClosePath()
      modifies this
      ensures log == old(log) + [Command.ClosePath]
    {
      log := log + [Command.ClosePath];
    }

    method DrawImage(rect: seq<Number>)
      modifies this
      ensures log == old(log) + [Command.DrawImage(rect)]
    {
      log := log + [Command.DrawImage(rect)];
    }

    method GetImageData(rect: seq<Number>)
      modifies this
      ensures log == old(log) + [Command.GetImageData(rect)]
    {
      log := log + [Command.GetImageData(rect)];
    }

    method PutImageData(at: seq<Number>)
      modifies this
      ensures log == old(log) + [Command.PutImageData(at)]
    {
      log := log + [Command.PutImageData(at)];
    }

    method Scale(x: Number, y: Number)
      modifies this
      ensures log == old(log) + [Command.Scale(x, y)]
    {
      log := log + [Command.Scale(x, y)];
    }

    method ClearRect(rect: seq<Number>)
      modifies this
      ensures log == old(log) + [Command.ClearRect(rect)]
    {
      log := log + [Command.ClearRect(rect)];
    }
  }
}
