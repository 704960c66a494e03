/** The `com.squareup.javawriter.JavaWriter` sink, reduced to the calls the
    generator makes. Each call appends one event to `trace`; serialisation,
    indentation and `%s` formatting are not modelled, so a statement keeps its
    pattern and arguments apart. */
module JavaWriterSink {
  import opened Wrappers
  import opened BoundboxModel

  datatype Event =
    | EmitPackage(packageName: string)
    | EmitEmptyLine
    | EmitImports(imports: seq<string>)
    | EmitJavadoc(javadoc: string)
    | EmitAnnotation(annotation: string)
    | BeginType(typeName: string, kind: string, typeModifiers: set<Modifier>, extendsType: Option<string>)
    | EndType
    | EmitField(fieldType: string, fieldName: string, fieldModifiers: set<Modifier>)
    | BeginInitializer(isStatic: bool)
    | EndInitializer
    | BeginMethod(returnType: Option<string>, methodName: string, methodModifiers: set<Modifier>,
                  parameters: seq<string>, throwsTypes: seq<string>)
    | EndMethod
    | BeginControlFlow(controlFlow: string)
    | EndControlFlow
    | EmitStatement(pattern: string, args: seq<string>)
    | EmitSingleLineComment(commentPattern: string, commentArgs: seq<string>)

  class JavaWriter {
    var trace: seq<Event>

    constructor ()
      ensures trace == []
    {
      trace := [];
    }

    method Emit(e: Event)
      modifies this
      ensures trace == old(trace) + [e]
    {
      trace := trace + [e];
    }

    /** A chain of consecutive calls on the writer, each emitting one event. */
    method EmitAll(events: seq<Event>)
      modifies this
      ensures trace == old(trace) + events
    {
      trace := trace + events;
    }
  }
}

module TraceAlgebra {
  lemma AppendAssoc<T>(a: seq<T>, b: seq<T>, c: seq<T>)
    ensures a + b + c == a + (b + c)
  {
  }
}
