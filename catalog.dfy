/**
 * The built-in catalog of application templates, its structural
 * invariants, and the derived list of categories shown as filters.
 */
module Catalog {
  import opened Wrappers
  import opened StringOrder

  /** The kind of input a configuration field asks for. */
  datatype FieldType = Text | Number | Select | Password | Toggle

  /** One configuration field of a template. */
  datatype Field = Field(
    id: string,
    labelText: string,
    fieldType: FieldType,
    required: bool,
    placeholder: Option<string>,
    defaultValue: Option<string>,
    options: Option<seq<string>>)

  datatype Links = Links(docs: Option<string>, image: Option<string>)

  /** One self-hostable application and the hints that steer compose generation. */
  datatype AppTemplate = AppTemplate(
    slug: string,
    name: string,
    description: string,
    category: string,
    emoji: string,
    tags: seq<string>,
    fields: seq<Field>,
    composeHints: string,
    links: Option<Links>)

  const NGINX_PROXY_MANAGER: AppTemplate :=
    AppTemplate(
      "nginx-proxy-manager", "Nginx Proxy Manager",
      "Reverse proxy with a beautiful web UI for managing SSL certificates and proxy hosts.",
      "Networking", "\U{1F310}",
      ["reverse-proxy", "ssl", "networking"],
      [
        Field("http_port", "HTTP Port", Number, true, None, Some("80"), None),
        Field("https_port", "HTTPS Port", Number, true, None, Some("443"), None),
        Field("admin_port", "Admin UI Port", Number, true, None, Some("81"), None)
      ],
      "Use jc21/nginx-proxy-manager image. Needs persistent data and letsencrypt volumes. Expose HTTP, HTTPS, and admin ports.",
      Some(Links(Some("https://nginxproxymanager.com/guide/"), None)))

  const PORTAINER: AppTemplate :=
    AppTemplate(
      "portainer", "Portainer",
      "Container management UI for Docker and Kubernetes.",
      "Management", "\U{1F433}",
      ["docker", "management", "containers"],
      [
        Field("port", "Web UI Port", Number, true, None, Some("9443"), None),
        Field("edition", "Edition", Select, true, None, Some("ce"), Some(["ce", "ee"]))
      ],
      "Use portainer/portainer-ce image. Mount /var/run/docker.sock. Use HTTPS (9443). Persistent volume for data.",
      Some(Links(Some("https://docs.portainer.io/"), None)))

  const NEXTCLOUD: AppTemplate :=
    AppTemplate(
      "nextcloud", "Nextcloud",
      "Self-hosted productivity platform \U{2014} files, calendar, contacts, and more.",
      "Productivity", "\U{2601}\U{FE0F}",
      ["cloud", "files", "office"],
      [
        Field("port", "Web Port", Number, true, None, Some("8080"), None),
        Field("db_password", "Database Password", Password, true, Some("Strong password"), None, None),
        Field("admin_user", "Admin Username", Text, true, None, Some("admin"), None),
        Field("admin_password", "Admin Password", Password, true, Some("Strong password"), None, None)
      ],
      "Use nextcloud:stable image with MariaDB backend. Needs data and db volumes. Configure NEXTCLOUD_TRUSTED_DOMAINS.",
      Some(Links(Some("https://docs.nextcloud.com/"), None)))

  const VAULTWARDEN: AppTemplate :=
    AppTemplate(
      "vaultwarden", "Vaultwarden",
      "Lightweight Bitwarden-compatible password manager server.",
      "Security", "\U{1F510}",
      ["passwords", "security", "bitwarden"],
      [
        Field("port", "Web Port", Number, true, None, Some("8222"), None),
        Field("admin_token", "Admin Token", Password, true, Some("Generate a secure token"), None, None),
        Field("signups_allowed", "Allow Signups", Toggle, false, None, Some("false"), None)
      ],
      "Use vaultwarden/server image. Single container. Persistent volume for /data. Set ADMIN_TOKEN and SIGNUPS_ALLOWED env vars.",
      Some(Links(Some("https://github.com/dani-garcia/vaultwarden/wiki"), None)))

  const HOME_ASSISTANT: AppTemplate :=
    AppTemplate(
      "home-assistant", "Home Assistant",
      "Open-source home automation platform.",
      "IoT", "\U{1F3E0}",
      ["home-automation", "iot", "smart-home"],
      [
        Field("port", "Web Port", Number, true, None, Some("8123"), None),
        Field("timezone", "Timezone", Text, true, None, Some("America/Chicago"), None)
      ],
      "Use ghcr.io/home-assistant/home-assistant:stable. Network mode host recommended. Persistent config volume. Set TZ env var.",
      Some(Links(Some("https://www.home-assistant.io/docs/"), None)))

  const PLEX: AppTemplate :=
    AppTemplate(
      "plex", "Plex Media Server",
      "Stream your media library to any device.",
      "Media", "\U{1F3AC}",
      ["media", "streaming", "video"],
      [
        Field("port", "Web Port", Number, true, None, Some("32400"), None),
        Field("claim_token", "Claim Token", Text, false, Some("From plex.tv/claim"), None, None),
        Field("media_path", "Media Path", Text, true, Some("/path/to/media"), None, None)
      ],
      "Use plexinc/pms-docker image. Expose port 32400. Bind mount for media. Config volume. Set PLEX_CLAIM for first setup.",
      Some(Links(Some("https://support.plex.tv/"), None)))

  const GITEA: AppTemplate :=
    AppTemplate(
      "gitea", "Gitea",
      "Lightweight self-hosted Git service.",
      "Development", "\U{1F375}",
      ["git", "code", "development"],
      [
        Field("http_port", "HTTP Port", Number, true, None, Some("3000"), None),
        Field("ssh_port", "SSH Port", Number, true, None, Some("2222"), None),
        Field("db_password", "Database Password", Password, true, None, None, None)
      ],
      "Use gitea/gitea image with PostgreSQL. Expose HTTP and SSH ports. Data volume for /data. Set ROOT_URL.",
      Some(Links(Some("https://docs.gitea.com/"), None)))

  const UPTIME_KUMA: AppTemplate :=
    AppTemplate(
      "uptime-kuma", "Uptime Kuma",
      "Self-hosted monitoring tool like Uptime Robot.",
      "Monitoring", "\U{1F4CA}",
      ["monitoring", "uptime", "alerts"],
      [
        Field("port", "Web Port", Number, true, None, Some("3001"), None)
      ],
      "Use louislam/uptime-kuma image. Single container. Persistent volume for /app/data.",
      Some(Links(Some("https://github.com/louislam/uptime-kuma/wiki"), None)))

  const GRAFANA: AppTemplate :=
    AppTemplate(
      "grafana", "Grafana",
      "Analytics and monitoring dashboards.",
      "Monitoring", "\U{1F4C8}",
      ["monitoring", "dashboards", "analytics"],
      [
        Field("port", "Web Port", Number, true, None, Some("3000"), None),
        Field("admin_password", "Admin Password", Password, true, None, Some("admin"), None)
      ],
      "Use grafana/grafana-oss image. Persistent volume for /var/lib/grafana. Set GF_SECURITY_ADMIN_PASSWORD.",
      Some(Links(Some("https://grafana.com/docs/grafana/latest/"), None)))

  const JELLYFIN: AppTemplate :=
    AppTemplate(
      "jellyfin", "Jellyfin",
      "Free open-source media server \U{2014} movies, TV, music, and live TV.",
      "Media", "\U{1F3B5}",
      ["media", "streaming", "free"],
      [
        Field("port", "Web Port", Number, true, None, Some("8096"), None),
        Field("media_path", "Media Path", Text, true, Some("/path/to/media"), None, None)
      ],
      "Use jellyfin/jellyfin image. Bind mount for media. Config and cache volumes. Optional GPU passthrough for transcoding.",
      Some(Links(Some("https://jellyfin.org/docs/"), None)))

  const IMMICH: AppTemplate :=
    AppTemplate(
      "immich", "Immich",
      "Self-hosted Google Photos alternative with ML-powered features.",
      "Media", "\U{1F4F8}",
      ["photos", "backup", "ai"],
      [
        Field("port", "Web Port", Number, true, None, Some("2283"), None),
        Field("db_password", "Database Password", Password, true, None, None, None),
        Field("upload_path", "Upload Path", Text, true, Some("/path/to/photos"), None, None)
      ],
      "Use ghcr.io/immich-app/immich-server. Requires PostgreSQL with pgvecto.rs and Redis. Multi-container setup. Upload volume.",
      Some(Links(Some("https://immich.app/docs/"), None)))

  const TRAEFIK: AppTemplate :=
    AppTemplate(
      "traefik", "Traefik",
      "Cloud-native reverse proxy and load balancer with automatic HTTPS.",
      "Networking", "\U{1F500}",
      ["reverse-proxy", "ssl", "networking", "cloud-native"],
      [
        Field("http_port", "HTTP Port", Number, true, None, Some("80"), None),
        Field("https_port", "HTTPS Port", Number, true, None, Some("443"), None),
        Field("dashboard_port", "Dashboard Port", Number, true, None, Some("8080"), None),
        Field("acme_email", "ACME Email", Text, true, Some("you@example.com"), None, None)
      ],
      "Use traefik:v3.0 image. Mount docker.sock for provider discovery. Persistent acme.json volume for certificates. Enable dashboard.",
      Some(Links(Some("https://doc.traefik.io/traefik/"), None)))

  const PI_HOLE: AppTemplate :=
    AppTemplate(
      "pi-hole", "Pi-hole",
      "Network-wide ad blocker and DNS sinkhole.",
      "Networking", "\U{1F573}\U{FE0F}",
      ["dns", "adblock", "networking"],
      [
        Field("web_port", "Web UI Port", Number, true, None, Some("8080"), None),
        Field("web_password", "Web Password", Password, true, None, None, None)
      ],
      "Use pihole/pihole image. Expose DNS (53/tcp, 53/udp) and web UI. Set WEBPASSWORD. Persistent volumes for /etc/pihole and /etc/dnsmasq.d.",
      Some(Links(Some("https://docs.pi-hole.net/"), None)))

  const WIREGUARD: AppTemplate :=
    AppTemplate(
      "wireguard", "WireGuard (wg-easy)",
      "Simple WireGuard VPN server with a web UI.",
      "Networking", "\U{1F6E1}\U{FE0F}",
      ["vpn", "wireguard", "networking"],
      [
        Field("port", "VPN Port", Number, true, None, Some("51820"), None),
        Field("web_port", "Web UI Port", Number, true, None, Some("51821"), None),
        Field("password", "Web Password", Password, true, None, None, None),
        Field("hostname", "Public Hostname", Text, true, Some("vpn.example.com"), None, None)
      ],
      "Use ghcr.io/wg-easy/wg-easy image. Expose UDP VPN port and TCP web UI port. Set WG_HOST and PASSWORD. Needs NET_ADMIN cap.",
      Some(Links(Some("https://github.com/wg-easy/wg-easy"), None)))

  const N8N: AppTemplate :=
    AppTemplate(
      "n8n", "n8n",
      "Workflow automation tool \U{2014} open-source Zapier alternative.",
      "Automation", "\U{26A1}",
      ["automation", "workflows", "integration"],
      [
        Field("port", "Web Port", Number, true, None, Some("5678"), None),
        Field("webhook_url", "Webhook URL", Text, false, Some("https://n8n.example.com"), None, None)
      ],
      "Use n8nio/n8n image. Persistent volume for /home/node/.n8n. Set N8N_HOST and WEBHOOK_URL. Optional PostgreSQL backend.",
      Some(Links(Some("https://docs.n8n.io/"), None)))

  const NOCODB: AppTemplate :=
    AppTemplate(
      "nocodb", "NocoDB",
      "Open-source Airtable alternative \U{2014} turns any database into a smart spreadsheet.",
      "Productivity", "\U{1F4CB}",
      ["database", "spreadsheet", "no-code"],
      [
        Field("port", "Web Port", Number, true, None, Some("8080"), None),
        Field("db_password", "Database Password", Password, true, None, None, None)
      ],
      "Use nocodb/nocodb image with PostgreSQL. Set NC_DB connection string. Persistent data volume.",
      Some(Links(Some("https://docs.nocodb.com/"), None)))

  const OLLAMA: AppTemplate :=
    AppTemplate(
      "ollama", "Ollama",
      "Run large language models locally.",
      "AI", "\U{1F999}",
      ["ai", "llm", "ml"],
      [
        Field("port", "API Port", Number, true, None, Some("11434"), None),
        Field("gpu", "GPU Passthrough", Toggle, false, None, Some("true"), None)
      ],
      "Use ollama/ollama image. Expose API port. Persistent volume for /root/.ollama. If GPU enabled, add nvidia runtime and deploy resources with GPU reservation.",
      Some(Links(Some("https://ollama.com/"), None)))

  const OPEN_WEBUI: AppTemplate :=
    AppTemplate(
      "open-webui", "Open WebUI",
      "ChatGPT-style web interface for Ollama and OpenAI-compatible APIs.",
      "AI", "\U{1F4AC}",
      ["ai", "chat", "ui"],
      [
        Field("port", "Web Port", Number, true, None, Some("3000"), None),
        Field("ollama_url", "Ollama API URL", Text, false, None, Some("http://ollama:11434"), None)
      ],
      "Use ghcr.io/open-webui/open-webui image. Set OLLAMA_BASE_URL. Persistent volume for /app/backend/data.",
      Some(Links(Some("https://docs.openwebui.com/"), None)))

  const PAPERLESS_NGX: AppTemplate :=
    AppTemplate(
      "paperless-ngx", "Paperless-ngx",
      "Document management system that transforms physical documents into a searchable archive.",
      "Productivity", "\U{1F4C4}",
      ["documents", "ocr", "archive"],
      [
        Field("port", "Web Port", Number, true, None, Some("8000"), None),
        Field("admin_user", "Admin Username", Text, true, None, Some("admin"), None),
        Field("admin_password", "Admin Password", Password, true, None, None, None),
        Field("db_password", "Database Password", Password, true, None, None, None)
      ],
      "Use ghcr.io/paperless-ngx/paperless-ngx image with PostgreSQL and Redis. Volumes for data, media, consume, export. Set PAPERLESS_ADMIN_USER/PASSWORD.",
      Some(Links(Some("https://docs.paperless-ngx.com/"), None)))

  const HOMEPAGE: AppTemplate :=
    AppTemplate(
      "homepage", "Homepage",
      "Modern, highly customizable application dashboard.",
      "Management", "\U{1F3E1}",
      ["dashboard", "homepage", "management"],
      [
        Field("port", "Web Port", Number, true, None, Some("3000"), None)
      ],
      "Use ghcr.io/gethomepage/homepage image. Mount config directory. Optional Docker socket mount for widget auto-discovery.",
      Some(Links(Some("https://gethomepage.dev/"), None)))

  /** The catalog in four parts of five templates each, in display order. */
  const CATALOG_PART_1: seq<AppTemplate> := [NGINX_PROXY_MANAGER, PORTAINER, NEXTCLOUD, VAULTWARDEN, HOME_ASSISTANT]
  const CATALOG_PART_2: seq<AppTemplate> := [PLEX, GITEA, UPTIME_KUMA, GRAFANA, JELLYFIN]
  const CATALOG_PART_3: seq<AppTemplate> := [IMMICH, TRAEFIK, PI_HOLE, WIREGUARD, N8N]
  const CATALOG_PART_4: seq<AppTemplate> := [NOCODB, OLLAMA, OPEN_WEBUI, PAPERLESS_NGX, HOMEPAGE]

  /** The twenty built-in templates, in display order. */
  const APP_CATALOG: seq<AppTemplate> := CATALOG_PART_1 + CATALOG_PART_2 + CATALOG_PART_3 + CATALOG_PART_4

  /** `apps.map(a => a.category)`. */
  function CategoryList(apps: seq<AppTemplate>): (r: seq<string>)
    ensures |r| == |apps|
    ensures forall i :: 0 <= i < |apps| ==> r[i] == apps[i].category
  {
    if apps == [] then [] else [apps[0].category] + CategoryList(apps[1..])
  }

  /** No two templates share a slug. */
  predicate SlugsDistinct(apps: seq<AppTemplate>) {
    forall i, j :: 0 <= i < j < |apps| ==> apps[i].slug != apps[j].slug
  }

  /** No two fields of one template share an id. */
  predicate FieldIdsDistinct(fields: seq<Field>) {
    forall i, j :: 0 <= i < j < |fields| ==> fields[i].id != fields[j].id
  }

  /** A select field offers options and defaults to one of them; a toggle defaults to a boolean word. */
  predicate FieldWellFormed(f: Field) {
    && (f.fieldType == Select ==> f.options.Some? && (f.defaultValue.Some? ==> f.defaultValue.value in f.options.value))
    && (f.fieldType == Toggle && f.defaultValue.Some? ==> f.defaultValue.value in ["true", "false"])
  }

  /** A template has a slug and a name, distinct field ids and well-formed fields. */
  predicate TemplateWellFormed(t: AppTemplate) {
    && t.slug != ""
    && t.name != ""
    && FieldIdsDistinct(t.fields)
    && forall k :: 0 <= k < |t.fields| ==> FieldWellFormed(t.fields[k])
  }

  /** The slug of each template, in catalog order, in four parts. */
  const SLUG_COLUMN_1: seq<string> := ["nginx-proxy-manager", "portainer", "nextcloud", "vaultwarden", "home-assistant"]
  const SLUG_COLUMN_2: seq<string> := ["plex", "gitea", "uptime-kuma", "grafana", "jellyfin"]
  const SLUG_COLUMN_3: seq<string> := ["immich", "traefik", "pi-hole", "wireguard", "n8n"]
  const SLUG_COLUMN_4: seq<string> := ["nocodb", "ollama", "open-webui", "paperless-ngx", "homepage"]
  const SLUG_COLUMN: seq<string> := SLUG_COLUMN_1 + SLUG_COLUMN_2 + SLUG_COLUMN_3 + SLUG_COLUMN_4

  /** The category of each template, in catalog order, in four parts. */
  const CATEGORY_COLUMN_1: seq<string> := ["Networking", "Management", "Productivity", "Security", "IoT"]
  const CATEGORY_COLUMN_2: seq<string> := ["Media", "Development", "Monitoring", "Monitoring", "Media"]
  const CATEGORY_COLUMN_3: seq<string> := ["Media", "Networking", "Networking", "Networking", "Automation"]
  const CATEGORY_COLUMN_4: seq<string> := ["Productivity", "AI", "AI", "Productivity", "Management"]
  const CATEGORY_COLUMN: seq<string> := CATEGORY_COLUMN_1 + CATEGORY_COLUMN_2 + CATEGORY_COLUMN_3 + CATEGORY_COLUMN_4

  /** `slugs` and `categories` list the slug and the category of each template of `apps`. */
  predicate HasColumns(apps: seq<AppTemplate>, slugs: seq<string>, categories: seq<string>) {
    && |slugs| == |apps|
    && |categories| == |apps|
    && forall i :: 0 <= i < |apps| ==> apps[i].slug == slugs[i] && apps[i].category == categories[i]
  }

  /** Every template of `apps` is well formed. */
  predicate AllWellFormed(apps: seq<AppTemplate>) {
    forall i :: 0 <= i < |apps| ==> TemplateWellFormed(apps[i])
  }

  /** The columns of two lists of templates, side by side, are the columns of the joined list. */
  lemma ColumnsConcat(a: seq<AppTemplate>, slugsA: seq<string>, categoriesA: seq<string>,
                      b: seq<AppTemplate>, slugsB: seq<string>, categoriesB: seq<string>)
    requires HasColumns(a, slugsA, categoriesA) && HasColumns(b, slugsB, categoriesB)
    ensures HasColumns(a + b, slugsA + slugsB, categoriesA + categoriesB)
  {
    forall i | |a| <= i < |a| + |b|
      ensures (a + b)[i].slug == (slugsA + slugsB)[i] && (a + b)[i].category == (categoriesA + categoriesB)[i]
    {
      assert (a + b)[i] == b[i - |a|];
    }
  }

  /** Joining two lists of well-formed templates gives a list of well-formed templates. */
  lemma WellFormedConcat(a: seq<AppTemplate>, b: seq<AppTemplate>)
    requires AllWellFormed(a) && AllWellFormed(b)
    ensures AllWellFormed(a + b)
  {
    forall i | |a| <= i < |a| + |b| ensures TemplateWellFormed((a + b)[i]) {
      assert (a + b)[i] == b[i - |a|];
    }
  }

  /** Distinct slugs in the columns mean distinct slugs in the templates. */
  lemma SlugsDistinctByColumn(apps: seq<AppTemplate>, slugs: seq<string>, categories: seq<string>)
    requires HasColumns(apps, slugs, categories) && NoDuplicates(slugs)
    ensures SlugsDistinct(apps)
  {
  }

  lemma NginxProxyManagerWellFormed()
    ensures TemplateWellFormed(NGINX_PROXY_MANAGER)
  {
  }

  lemma PortainerWellFormed()
    ensures TemplateWellFormed(PORTAINER)
  {
  }

  lemma NextcloudWellFormed()
    ensures TemplateWellFormed(NEXTCLOUD)
  {
  }

  lemma VaultwardenWellFormed()
    ensures TemplateWellFormed(VAULTWARDEN)
  {
  }

  lemma HomeAssistantWellFormed()
    ensures TemplateWellFormed(HOME_ASSISTANT)
  {
  }

  lemma PlexWellFormed()
    ensures TemplateWellFormed(PLEX)
  {
  }

  lemma GiteaWellFormed()
    ensures TemplateWellFormed(GITEA)
  {
  }

  lemma UptimeKumaWellFormed()
    ensures TemplateWellFormed(UPTIME_KUMA)
  {
  }

  lemma GrafanaWellFormed()
    ensures TemplateWellFormed(GRAFANA)
  {
  }

  lemma JellyfinWellFormed()
    ensures TemplateWellFormed(JELLYFIN)
  {
  }

  lemma ImmichWellFormed()
    ensures TemplateWellFormed(IMMICH)
  {
  }

  lemma TraefikWellFormed()
    ensures TemplateWellFormed(TRAEFIK)
  {
  }

  lemma PiHoleWellFormed()
    ensures TemplateWellFormed(PI_HOLE)
  {
  }

  lemma WireguardWellFormed()
    ensures TemplateWellFormed(WIREGUARD)
  {
  }

  lemma N8nWellFormed()
    ensures TemplateWellFormed(N8N)
  {
  }

  lemma NocodbWellFormed()
    ensures TemplateWellFormed(NOCODB)
  {
  }

  lemma OllamaWellFormed()
    ensures TemplateWellFormed(OLLAMA)
  {
  }

  lemma OpenWebuiWellFormed()
    ensures TemplateWellFormed(OPEN_WEBUI)
  {
  }

  lemma PaperlessNgxWellFormed()
    ensures TemplateWellFormed(PAPERLESS_NGX)
  {
  }

  lemma HomepageWellFormed()
    ensures TemplateWellFormed(HOMEPAGE)
  {
  }

  /** Part 1 of the catalog: its slugs and categories, and each template well formed. */
  lemma CatalogPart1()
    ensures HasColumns(CATALOG_PART_1, SLUG_COLUMN_1, CATEGORY_COLUMN_1)
    ensures AllWellFormed(CATALOG_PART_1)
  {
    NginxProxyManagerWellFormed();
    PortainerWellFormed();
    NextcloudWellFormed();
    VaultwardenWellFormed();
    HomeAssistantWellFormed();
  }

  /** Part 2 of the catalog: its slugs and categories, and each template well formed. */
  lemma CatalogPart2()
    ensures HasColumns(CATALOG_PART_2, SLUG_COLUMN_2, CATEGORY_COLUMN_2)
    ensures AllWellFormed(CATALOG_PART_2)
  {
    PlexWellFormed();
    GiteaWellFormed();
    UptimeKumaWellFormed();
    GrafanaWellFormed();
    JellyfinWellFormed();
  }

  /** Part 3 of the catalog: its slugs and categories, and each template well formed. */
  lemma CatalogPart3()
    ensures HasColumns(CATALOG_PART_3, SLUG_COLUMN_3, CATEGORY_COLUMN_3)
    ensures AllWellFormed(CATALOG_PART_3)
  {
    ImmichWellFormed();
    TraefikWellFormed();
    PiHoleWellFormed();
    WireguardWellFormed();
    N8nWellFormed();
  }

  /** Part 4 of the catalog: its slugs and categories, and each template well formed. */
  lemma CatalogPart4()
    ensures HasColumns(CATALOG_PART_4, SLUG_COLUMN_4, CATEGORY_COLUMN_4)
    ensures AllWellFormed(CATALOG_PART_4)
  {
    NocodbWellFormed();
    OllamaWellFormed();
    OpenWebuiWellFormed();
    PaperlessNgxWellFormed();
    HomepageWellFormed();
  }

  /** The catalog's slug and category columns. */
  lemma CatalogColumns()
    ensures |APP_CATALOG| == 20
    ensures HasColumns(APP_CATALOG, SLUG_COLUMN, CATEGORY_COLUMN)
  {
    CatalogPart1();
    CatalogPart2();
    CatalogPart3();
    CatalogPart4();
    PartsJoined(CATALOG_PART_1, CATALOG_PART_2, CATALOG_PART_3, CATALOG_PART_4,
                SLUG_COLUMN_1, SLUG_COLUMN_2, SLUG_COLUMN_3, SLUG_COLUMN_4,
                CATEGORY_COLUMN_1, CATEGORY_COLUMN_2, CATEGORY_COLUMN_3, CATEGORY_COLUMN_4);
  }

  /** Slugs `lo` to `hi - 1` of the column differ from every later one. */
  predicate SlugsDistinctFrom(slugs: seq<string>, lo: int, hi: int) {
    forall i, j :: 0 <= lo <= i < hi && i < j < |slugs| ==> slugs[i] != slugs[j]
  }

  lemma SlugColumnDistinct1()
    ensures SlugsDistinctFrom(SLUG_COLUMN, 0, 5)
  {
  }

  lemma SlugColumnDistinct2()
    ensures SlugsDistinctFrom(SLUG_COLUMN, 5, 10)
  {
  }

  lemma SlugColumnDistinct3()
    ensures SlugsDistinctFrom(SLUG_COLUMN, 10, 15)
  {
  }

  lemma SlugColumnDistinct4()
    ensures SlugsDistinctFrom(SLUG_COLUMN, 15, 20)
  {
  }

  /** No slug is listed twice. */
  lemma SlugsUnique()
    ensures NoDuplicates(SLUG_COLUMN)
  {
    SlugColumnDistinct1();
    SlugColumnDistinct2();
    SlugColumnDistinct3();
    SlugColumnDistinct4();
  }

  /** Four lists of templates, each with its columns and well formed, joined. */
  lemma PartsJoined(p1: seq<AppTemplate>, p2: seq<AppTemplate>, p3: seq<AppTemplate>, p4: seq<AppTemplate>,
                    s1: seq<string>, s2: seq<string>, s3: seq<string>, s4: seq<string>,
                    c1: seq<string>, c2: seq<string>, c3: seq<string>, c4: seq<string>)
    requires HasColumns(p1, s1, c1) && HasColumns(p2, s2, c2) && HasColumns(p3, s3, c3) && HasColumns(p4, s4, c4)
    requires AllWellFormed(p1) && AllWellFormed(p2) && AllWellFormed(p3) && AllWellFormed(p4)
    ensures HasColumns(p1 + p2 + p3 + p4, s1 + s2 + s3 + s4, c1 + c2 + c3 + c4)
    ensures AllWellFormed(p1 + p2 + p3 + p4)
  {
    ColumnsConcat(p1, s1, c1, p2, s2, c2);
    ColumnsConcat(p1 + p2, s1 + s2, c1 + c2, p3, s3, c3);
    ColumnsConcat(p1 + p2 + p3, s1 + s2 + s3, c1 + c2 + c3, p4, s4, c4);
    WellFormedConcat(p1, p2);
    WellFormedConcat(p1 + p2, p3);
    WellFormedConcat(p1 + p2 + p3, p4);
  }

  /**
   * The catalog's structural invariants: twenty templates with distinct
   * slugs, each with a slug, a name, distinct field ids and well-formed fields.
   */
  lemma CatalogWellFormed()
    ensures |APP_CATALOG| == 20
    ensures SlugsDistinct(APP_CATALOG)
    ensures AllWellFormed(APP_CATALOG)
  {
    CatalogColumns();
    SlugsUnique();
    SlugsDistinctByColumn(APP_CATALOG, SLUG_COLUMN, CATEGORY_COLUMN);
    CatalogPart1();
    CatalogPart2();
    CatalogPart3();
    CatalogPart4();
    PartsJoined(CATALOG_PART_1, CATALOG_PART_2, CATALOG_PART_3, CATALOG_PART_4,
                SLUG_COLUMN_1, SLUG_COLUMN_2, SLUG_COLUMN_3, SLUG_COLUMN_4,
                CATEGORY_COLUMN_1, CATEGORY_COLUMN_2, CATEGORY_COLUMN_3, CATEGORY_COLUMN_4);
  }

  /** `[...new Set(apps.map(a => a.category))].sort()`. */
  function Categories(apps: seq<AppTemplate>): (r: seq<string>)
    ensures StrictlySorted(r)
    ensures forall c :: c in r <==> exists i :: 0 <= i < |apps| && apps[i].category == c
  {
    var distinct := Dedup(CategoryList(apps));
    SortDistinct(distinct);
    var r := Sort(distinct);
    assert forall c :: c in r <==> c in multiset(r);
    assert forall c :: c in r <==> c in distinct;
    r
  }

  /** The category filters, in character order. */
  const CATEGORIES: seq<string> := Categories(APP_CATALOG)

  /** The ten categories of the built-in catalog, in character order. */
  const CATEGORY_NAMES: seq<string> :=
    ["AI", "Automation", "Development", "IoT", "Management", "Media", "Monitoring", "Networking", "Productivity", "Security"]

  lemma CategoryNamesSorted()
    ensures StrictlySorted(CATEGORY_NAMES)
  {
    var names := CATEGORY_NAMES;
    assert StrLe(names[0], names[1]) && names[0][1] != names[1][1];
    assert StrLe(names[1], names[2]) && names[1][0] != names[2][0];
    assert StrLe(names[2], names[3]) && names[2][0] != names[3][0];
    assert StrLe(names[3], names[4]) && names[3][0] != names[4][0];
    assert StrLe(names[4], names[5]) && names[4][1] != names[5][1];
    assert StrLe(names[5], names[6]) && names[5][1] != names[6][1];
    assert StrLe(names[6], names[7]) && names[6][0] != names[7][0];
    assert StrLe(names[7], names[8]) && names[7][0] != names[8][0];
    assert StrLe(names[8], names[9]) && names[8][0] != names[9][0];
    StrictChain(names);
  }

  /** The category column uses exactly the ten category names. */
  lemma CategoryColumnNames()
    ensures forall i :: 0 <= i < |CATEGORY_COLUMN| ==> CATEGORY_COLUMN[i] in CATEGORY_NAMES
    ensures forall c :: c in CATEGORY_NAMES ==> exists i :: 0 <= i < |CATEGORY_COLUMN| && CATEGORY_COLUMN[i] == c
  {
    assert CATEGORY_COLUMN[16] == "AI";
    assert CATEGORY_COLUMN[14] == "Automation";
    assert CATEGORY_COLUMN[6] == "Development";
    assert CATEGORY_COLUMN[4] == "IoT";
    assert CATEGORY_COLUMN[1] == "Management";
    assert CATEGORY_COLUMN[5] == "Media";
    assert CATEGORY_COLUMN[7] == "Monitoring";
    assert CATEGORY_COLUMN[0] == "Networking";
    assert CATEGORY_COLUMN[2] == "Productivity";
    assert CATEGORY_COLUMN[3] == "Security";
  }

  /** A list whose category column uses exactly the strictly sorted `names` has `names` as its categories. */
  lemma CategoriesByColumn(apps: seq<AppTemplate>, slugs: seq<string>, categories: seq<string>, names: seq<string>)
    requires HasColumns(apps, slugs, categories) && StrictlySorted(names)
    requires forall i :: 0 <= i < |categories| ==> categories[i] in names
    requires forall c :: c in names ==> exists i :: 0 <= i < |categories| && categories[i] == c
    ensures Categories(apps) == names
  {
    forall c ensures c in Categories(apps) <==> c in names {
      if c in names {
        var i :| 0 <= i < |categories| && categories[i] == c;
        assert apps[i].category == c;
      }
    }
    StrictlySortedUnique(Categories(apps), names);
  }

  /** `CATEGORIES` evaluates to the ten category names, sorted. */
  lemma CategoriesValue()
    ensures CATEGORIES == CATEGORY_NAMES
  {
    CatalogColumns();
    CategoryColumnNames();
    CategoryNamesSorted();
    CategoriesByColumn(APP_CATALOG, SLUG_COLUMN, CATEGORY_COLUMN, CATEGORY_NAMES);
  }
}
