/** The in-memory INI document that `Config::init` builds before writing it:
    named sections, each a map from key to value. Serialisation and parsing
    belong to the INI library and are not part of this model. */
module Ini {

  type Properties = map<string, string>
  type Document = map<string, Properties>

  const DatabaseSection := "Database"
  const TypeKey := "db_type"
  const PathKey := "db_path"

  /** `Ini::new()`: a document with no named sections. */
  function Empty(): (d: Document)
    ensures |d| == 0
  {
    map[]
  }

  /** `with_section(Some(section)).set(key, value)`: the section is created
      when it is missing, the key is added or overwritten, and every other
      section and key keeps its value. */
  function Set(doc: Document, section: string, key: string, value: string): (d: Document)
    ensures d.Keys == doc.Keys + {section}
    ensures d[section].Keys == (if section in doc then doc[section].Keys else {}) + {key}
    ensures d[section][key] == value
    ensures forall k :: k in d[section] && k != key ==> d[section][k] == doc[section][k]
    ensures forall s :: s in doc && s != section ==> d[s] == doc[s]
  {
    var props := if section in doc then doc[section] else map[];
    doc[section := props[key := value]]
  }

  /** The document `init` writes when no configuration file exists: exactly one
      section `Database`, holding exactly the keys `db_type` and `db_path`. */
  function DatabaseDocument(dbType: string, dbPath: string): (d: Document)
    ensures d.Keys == {DatabaseSection}
    ensures d[DatabaseSection].Keys == {TypeKey, PathKey}
    ensures d[DatabaseSection][TypeKey] == dbType
    ensures d[DatabaseSection][PathKey] == dbPath
  {
    Set(Set(Empty(), DatabaseSection, TypeKey, dbType), DatabaseSection, PathKey, dbPath)
  }
}
